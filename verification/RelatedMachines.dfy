/** List scheduling on workers that decode at different rates: what charging each
    worker the time its own rate needs guarantees against every other
    assignment. */
module RelatedMachines {
  import opened Ordering
  import opened Models
  import opened Scheduling
  import opened Placement

  lemma Distributes(r: real, a: real, b: real)
    ensures r * (a + b) == r * a + r * b
  {}

  lemma ProductGrows(r: real, a: real, b: real)
    requires r >= 0.0 && a <= b
    ensures r * a <= r * b
  {}

  lemma QuotientCancels(x: real, r: Rate)
    ensures r * (x / r) == x
  {}

  lemma QuotientPositive(x: real, r: Rate)
    requires x >= 0.0
    ensures x / r >= 0.0
  {}

  lemma QuotientAdds(a: real, b: real, r: Rate)
    ensures (a + b) / r == a / r + b / r
  {}

  /** How much could be decoded by the time each worker is busy to. */
  function Weighted(rates: seq<Rate>, xs: seq<real>): real
    requires |rates| == |xs|
  {
    if xs == [] then 0.0
    else
      var n := |xs| - 1;
      Weighted(rates[..n], xs[..n]) + rates[n] * xs[n]
  }

  function Copies(n: nat, x: real): (xs: seq<real>)
    ensures |xs| == n && forall i | 0 <= i < n :: xs[i] == x
  {
    seq(n, _ => x)
  }

  lemma {:induction false} WeightedCopies(rates: seq<Rate>, x: real)
    ensures Weighted(rates, Copies(|rates|, x)) == Sum(rates) * x
  {
    if rates != [] {
      var n := |rates| - 1;
      WeightedCopies(rates[..n], x);
      assert Copies(n + 1, x)[..n] == Copies(n, x);
      Distributes(x, Sum(rates[..n]), rates[n]);
    }
  }

  lemma {:induction false} WeightedUpdate(rates: seq<Rate>, xs: seq<real>, i: nat, d: real, x: real)
    requires |rates| == |xs| && i < |xs| && rates[i] * d == x
    ensures Weighted(rates, xs[i := xs[i] + d]) == Weighted(rates, xs) + x
  {
    var n := |xs| - 1;
    var ys := xs[i := xs[i] + d];
    if i == n {
      assert ys[..n] == xs[..n];
      Distributes(rates[n], xs[n], d);
    } else {
      WeightedUpdate(rates[..n], xs[..n], i, d, x);
      assert ys[..n] == xs[..n][i := xs[..n][i] + d];
    }
  }

  lemma {:induction false} WeightedGrows(rates: seq<Rate>, xs: seq<real>, ys: seq<real>)
    requires |rates| == |xs| == |ys| && forall i | 0 <= i < |xs| :: xs[i] <= ys[i]
    ensures Weighted(rates, xs) <= Weighted(rates, ys)
  {
    if xs != [] {
      var n := |xs| - 1;
      WeightedGrows(rates[..n], xs[..n], ys[..n]);
      ProductGrows(rates[n], xs[n], ys[n]);
    }
  }

  /** The k-th job costs worker w the time its rate needs. */
  ghost predicate ChargedAt(cost: seq<seq<real>>, rates: seq<Rate>, jobs: seq<real>, k: nat, w: nat)
    requires CostTable(cost, |jobs|, |rates|) && k < |jobs| && w < |rates|
  {
    rates[w] * cost[k][w] == jobs[k] && cost[k][w] >= 0.0
  }

  ghost predicate Charged(cost: seq<seq<real>>, rates: seq<Rate>, jobs: seq<real>) {
    && CostTable(cost, |jobs|, |rates|)
    && forall k, w {:trigger ChargedAt(cost, rates, jobs, k, w)} | 0 <= k < |jobs| && 0 <= w < |rates| ::
         ChargedAt(cost, rates, jobs, k, w)
  }

  /** No assignment creates or loses work. */
  lemma {:induction false} SpreadConserves(init: seq<real>, rates: seq<Rate>, cost: seq<seq<real>>, jobs: seq<real>,
                                           choice: seq<nat>)
    requires |rates| == |init| && Charged(cost, rates, jobs) && |choice| <= |jobs| && Within(choice, |init|)
    ensures Weighted(rates, Spread(init, cost, choice)) == Weighted(rates, init) + Sum(jobs[..|choice|])
  {
    if choice == [] {
      assert jobs[..0] == [];
    } else {
      var k := |choice| - 1;
      SpreadConserves(init, rates, cost, jobs, choice[..k]);
      assert ChargedAt(cost, rates, jobs, k, choice[k]);
      WeightedUpdate(rates, Spread(init, cost, choice[..k]), choice[k], cost[k][choice[k]], jobs[k]);
      assert jobs[..k + 1][..k] == jobs[..k];
    }
  }

  lemma {:induction false} SpreadGrows(init: seq<real>, rates: seq<Rate>, cost: seq<seq<real>>, jobs: seq<real>,
                                       choice: seq<nat>, n: nat, w: nat)
    requires |rates| == |init| && Charged(cost, rates, jobs) && |choice| <= |jobs| && Within(choice, |init|)
    requires n <= |choice| && w < |init|
    ensures Spread(init, cost, choice[..n])[w] <= Spread(init, cost, choice)[w]
  {
    if n == |choice| {
      assert choice[..n] == choice;
    } else {
      var k := |choice| - 1;
      SpreadGrows(init, rates, cost, jobs, choice[..k], n, w);
      assert choice[..k][..n] == choice[..n];
      assert ChargedAt(cost, rates, jobs, k, choice[k]);
    }
  }

  lemma InitIsBelow(init: seq<real>, rates: seq<Rate>, cost: seq<seq<real>>, jobs: seq<real>, choice: seq<nat>, w: nat)
    requires |rates| == |init| && Charged(cost, rates, jobs) && |choice| <= |jobs| && Within(choice, |init|)
    requires w < |init|
    ensures init[w] <= Peak(Spread(init, cost, choice))
  {
    SpreadGrows(init, rates, cost, jobs, choice, 0, w);
    assert choice[..0] == [];
    assert init[w] <= Spread(init, cost, choice)[w];
  }

  /** Every job an assignment places takes no longer than all of it. */
  lemma JobIsBelow(init: seq<real>, rates: seq<Rate>, cost: seq<seq<real>>, jobs: seq<real>, choice: seq<nat>, k: nat)
    requires |rates| == |init| && Charged(cost, rates, jobs) && |choice| == |jobs| && Within(choice, |init|)
    requires NoneNegative(init) && k < |jobs|
    ensures cost[k][choice[k]] <= Peak(Spread(init, cost, choice))
  {
    var v := choice[k];
    SpreadGrows(init, rates, cost, jobs, choice, k + 1, v);
    assert choice[..k + 1][..k] == choice[..k];
    SpreadGrows(init, rates, cost, jobs, choice[..k], 0, v);
    assert choice[..k][..0] == [];
    assert Spread(init, cost, choice)[v] <= Peak(Spread(init, cost, choice));
  }

  /** Each job went to the first worker done soonest with those before it. */
  ghost predicate Soonest(init: seq<real>, cost: seq<seq<real>>, choice: seq<nat>) {
    && CostTable(cost, |cost|, |init|) && |choice| == |cost| && Within(choice, |init|)
    && forall k {:trigger SoonestAt(init, cost, choice, k)} | 0 <= k < |choice| :: SoonestAt(init, cost, choice, k)
  }

  ghost predicate SoonestAt(init: seq<real>, cost: seq<seq<real>>, choice: seq<nat>, k: nat)
    requires CostTable(cost, |cost|, |init|) && k < |choice| <= |cost| && Within(choice, |init|)
  {
    IsLeast(Spread(init, cost, choice[..k]), choice[k])
  }

  /** Where the k-th job starts, against any other assignment: were all workers
      busy just until then, the job would still fit before the best time. */
  lemma SoonestStart(init: seq<real>, rates: seq<Rate>, cost: seq<seq<real>>, jobs: seq<real>,
                     mine: seq<nat>, other: seq<nat>, k: nat)
    requires |rates| == |init| && Charged(cost, rates, jobs) && NoneNegative(jobs) && Soonest(init, cost, mine)
    requires |other| == |jobs| && Within(other, |init|) && k < |jobs|
    ensures Weighted(rates, Copies(|rates|, Spread(init, cost, mine[..k])[mine[k]])) + jobs[k]
         <= Weighted(rates, Copies(|rates|, Peak(Spread(init, cost, other))))
  {
    StartWeighs(init, rates, cost, jobs, mine, k);
    BestWeighs(init, rates, cost, jobs, other);
  }

  lemma StartWeighs(init: seq<real>, rates: seq<Rate>, cost: seq<seq<real>>, jobs: seq<real>, mine: seq<nat>, k: nat)
    requires |rates| == |init| && Charged(cost, rates, jobs) && NoneNegative(jobs) && Soonest(init, cost, mine)
    requires k < |jobs|
    ensures Weighted(rates, Copies(|rates|, Spread(init, cost, mine[..k])[mine[k]])) + jobs[k]
         <= Weighted(rates, init) + Sum(jobs)
  {
    assert SoonestAt(init, cost, mine, k);
    LeastWeighs(rates, Spread(init, cost, mine[..k]), mine[k]);
    NextWeighs(init, rates, cost, jobs, mine, k);
  }

  lemma LeastWeighs(rates: seq<Rate>, times: seq<real>, w: nat)
    requires |rates| == |times| && IsLeast(times, w)
    ensures Weighted(rates, Copies(|rates|, times[w])) <= Weighted(rates, times)
  {
    WeightedGrows(rates, Copies(|rates|, times[w]), times);
  }

  lemma NextWeighs(init: seq<real>, rates: seq<Rate>, cost: seq<seq<real>>, jobs: seq<real>, mine: seq<nat>, k: nat)
    requires |rates| == |init| && Charged(cost, rates, jobs) && NoneNegative(jobs)
    requires |mine| == |jobs| && Within(mine, |init|) && k < |jobs|
    ensures Weighted(rates, Spread(init, cost, mine[..k])) + jobs[k] <= Weighted(rates, init) + Sum(jobs)
  {
    SpreadConserves(init, rates, cost, jobs, mine[..k]);
    SumToNext(jobs, k);
  }

  lemma SumToNext(jobs: seq<real>, k: nat)
    requires NoneNegative(jobs) && k < |jobs|
    ensures Sum(jobs[..k]) + jobs[k] <= Sum(jobs)
  {
    assert jobs[..k + 1][..k] == jobs[..k];
    SumMonotone(jobs, k + 1);
  }

  lemma BestWeighs(init: seq<real>, rates: seq<Rate>, cost: seq<seq<real>>, jobs: seq<real>, other: seq<nat>)
    requires |rates| == |init| && Charged(cost, rates, jobs) && init != []
    requires |other| == |jobs| && Within(other, |init|)
    ensures Weighted(rates, init) + Sum(jobs) <= Weighted(rates, Copies(|rates|, Peak(Spread(init, cost, other))))
  {
    var after := Spread(init, cost, other);
    SpreadConserves(init, rates, cost, jobs, other);
    assert jobs[..|other|] == jobs;
    WeightedGrows(rates, after, Copies(|rates|, Peak(after)));
  }

  /** mine <= (1 + fast/slow - fast/total) * best; with equal rates that is
      2 - 1/m. */
  ghost predicate WithinRatesFactor(slow: Rate, fast: Rate, total: Rate, mine: real, best: real) {
    mine <= (1.0 + fast / slow - fast / total) * best
  }

  lemma Cancels(r: Rate, a: real, b: real)
    requires r * a <= r * b
    ensures a <= b
  {}

  lemma InverseShrinks(a: Rate, b: Rate)
    requires a <= b
    ensures 1.0 / b <= 1.0 / a
  {
    QuotientCancels(1.0, a);
    QuotientCancels(1.0, b);
    QuotientPositive(1.0, b);
    ProductGrows(1.0 / b, a, b);
    Cancels(a, 1.0 / b, 1.0 / a);
  }

  lemma AsInverse(x: real, r: Rate)
    ensures x / r == x * (1.0 / r)
  {}

  /** The start and the length of a job, as multiples of the best time. */
  lemma JobAdds(start: real, c: real, x: real, r: Rate, slow: Rate, fast: Rate, total: Rate, best: real)
    requires slow <= r && slow <= total && 0.0 <= x <= fast * best && r * c == x
    requires total * start + x <= total * best
    ensures WithinRatesFactor(slow, fast, total, start + c, best)
  {
    StartsBefore(start, x, total, best);
    LastsAtMost(x, c, r, slow);
    GapGrows(x, slow, fast, total, best);
    FactorIs(slow, fast, total, best);
  }

  lemma Quotient(x: real, r: Rate, c: real)
    requires r * c == x
    ensures x / r == c
  {
    QuotientCancels(x, r);
    Cancels(r, x / r, c);
    Cancels(r, c, x / r);
  }

  lemma LastsAtMost(x: real, c: real, r: Rate, slow: Rate)
    requires slow <= r && 0.0 <= x && r * c == x
    ensures c <= x * (1.0 / slow)
  {
    Quotient(x, r, c);
    InverseShrinks(slow, r);
    AsInverse(x, r);
    ProductGrows(x, 1.0 / r, 1.0 / slow);
  }

  lemma GapGrows(x: real, slow: Rate, fast: Rate, total: Rate, best: real)
    requires slow <= total && x <= fast * best
    ensures x * (1.0 / slow) - x * (1.0 / total) <= (1.0 / slow - 1.0 / total) * (fast * best)
  {
    InverseShrinks(slow, total);
    ProductGrows(1.0 / slow - 1.0 / total, x, fast * best);
    Distributes(x, 1.0 / slow, -(1.0 / total));
  }

  lemma StartsBefore(start: real, x: real, total: Rate, best: real)
    requires total * start + x <= total * best
    ensures start <= best - x * (1.0 / total)
  {
    QuotientCancels(x, total);
    AsInverse(x, total);
    Distributes(total, start, x / total);
    Cancels(total, start + x / total, best);
  }

  lemma FactorIs(slow: Rate, fast: Rate, total: Rate, best: real)
    ensures (1.0 + fast / slow - fast / total) * best == best + (1.0 / slow - 1.0 / total) * (fast * best)
  {
    AsInverse(fast, slow);
    AsInverse(fast, total);
    Expands(fast, 1.0 / slow, 1.0 / total, best);
  }

  lemma Expands(f: real, p: real, q: real, b: real)
    ensures (1.0 + f * p - f * q) * b == b + (p - q) * (f * b)
  {}

  lemma FactorIsOneOrMore(slow: Rate, fast: Rate, total: Rate, mine: real, best: real)
    requires slow <= total && 0.0 <= best && mine <= best
    ensures WithinRatesFactor(slow, fast, total, mine, best)
  {
    InverseShrinks(slow, total);
    ProductGrows(fast, 0.0, best);
    ProductGrows(fast * best, 0.0, 1.0 / slow - 1.0 / total);
    FactorIs(slow, fast, total, best);
  }

  lemma {:induction false} SumOfRates(rates: seq<Rate>, w: nat)
    requires w < |rates|
    ensures rates[w] <= Sum(rates)
  {
    var n := |rates| - 1;
    if w < n { SumOfRates(rates[..n], w); } else { SumNotNegative(rates[..n]); }
  }

  lemma {:induction false} SumNotNegative(rates: seq<Rate>)
    ensures Sum(rates) >= 0.0
  {
    if rates != [] { SumNotNegative(rates[..|rates| - 1]); }
  }

  /** What a job leaves on the worker it went to. */
  lemma JobLeaves(start: real, c: real, c': real, x: real, r: Rate, r': Rate, rates: seq<Rate>,
                  slow: Rate, fast: Rate, best: real)
    requires rates != [] && slow <= r && slow <= Sum(rates) && r' <= fast
    requires r * c == x && r' * c' == x && 0.0 <= c' <= best && c >= 0.0
    requires Weighted(rates, Copies(|rates|, start)) + x <= Weighted(rates, Copies(|rates|, best))
    ensures WithinRatesFactor(slow, fast, Sum(rates), start + c, best)
  {
    FromCopies(rates, start, x, best);
    WorkFits(x, r', c', fast, best);
    JobAdds(start, c, x, r, slow, fast, Sum(rates), best);
  }

  lemma FromCopies(rates: seq<Rate>, start: real, x: real, best: real)
    requires Weighted(rates, Copies(|rates|, start)) + x <= Weighted(rates, Copies(|rates|, best))
    ensures Sum(rates) * start + x <= Sum(rates) * best
  {
    WeightedCopies(rates, start);
    WeightedCopies(rates, best);
  }

  lemma WorkFits(x: real, r: Rate, c: real, fast: Rate, best: real)
    requires r * c == x && 0.0 <= c <= best && r <= fast
    ensures 0.0 <= x <= fast * best
  {
    ProductGrows(r, 0.0, c);
    ProductGrows(r, c, best);
    ProductGrows(best, r, fast);
  }

  /** Everything the bound is about. */
  ghost predicate Setting(init: seq<real>, rates: seq<Rate>, cost: seq<seq<real>>, jobs: seq<real>,
                          mine: seq<nat>, other: seq<nat>, slow: Rate, fast: Rate)
  {
    && init != [] && |rates| == |init| && NoneNegative(init) && NoneNegative(jobs) && Charged(cost, rates, jobs)
    && Soonest(init, cost, mine) && |other| == |jobs| && Within(other, |init|)
    && AtLeast(rates, slow) && AtMost(rates, fast) && slow <= Sum(rates)
  }

  lemma ChargesLeave(rates: seq<Rate>, cost: seq<seq<real>>, jobs: seq<real>, k: nat, w: nat, v: nat,
                     slow: Rate, fast: Rate, start: real, best: real)
    requires Charged(cost, rates, jobs) && k < |jobs| && w < |rates| && v < |rates|
    requires AtLeast(rates, slow) && AtMost(rates, fast) && slow <= Sum(rates) && cost[k][v] <= best
    requires Weighted(rates, Copies(|rates|, start)) + jobs[k] <= Weighted(rates, Copies(|rates|, best))
    ensures WithinRatesFactor(slow, fast, Sum(rates), start + cost[k][w], best)
  {
    var r, c := ChargeOf(cost, rates, jobs, k, w);
    var r', c' := ChargeOf(cost, rates, jobs, k, v);
    JobLeaves(start, c, c', jobs[k], r, r', rates, slow, fast, best);
  }

  lemma ChargeOf(cost: seq<seq<real>>, rates: seq<Rate>, jobs: seq<real>, k: nat, w: nat) returns (r: Rate, c: real)
    requires Charged(cost, rates, jobs) && k < |jobs| && w < |rates|
    ensures r == rates[w] && c == cost[k][w] && r * c == jobs[k] && c >= 0.0
  {
    assert ChargedAt(cost, rates, jobs, k, w);
    r, c := rates[w], cost[k][w];
  }

  lemma JobBound(init: seq<real>, rates: seq<Rate>, cost: seq<seq<real>>, jobs: seq<real>,
                 mine: seq<nat>, other: seq<nat>, slow: Rate, fast: Rate, k: nat)
    requires Setting(init, rates, cost, jobs, mine, other, slow, fast) && k < |jobs|
    ensures WithinRatesFactor(slow, fast, Sum(rates), Spread(init, cost, mine[..k])[mine[k]] + cost[k][mine[k]],
                              Peak(Spread(init, cost, other)))
  {
    SoonestStart(init, rates, cost, jobs, mine, other, k);
    JobIsBelow(init, rates, cost, jobs, other, k);
    ChargesLeave(rates, cost, jobs, k, mine[k], other[k], slow, fast, Spread(init, cost, mine[..k])[mine[k]],
                 Peak(Spread(init, cost, other)));
  }

  lemma StartBound(init: seq<real>, rates: seq<Rate>, cost: seq<seq<real>>, jobs: seq<real>,
                   mine: seq<nat>, other: seq<nat>, slow: Rate, fast: Rate, w: nat)
    requires Setting(init, rates, cost, jobs, mine, other, slow, fast) && w < |init|
    ensures WithinRatesFactor(slow, fast, Sum(rates), init[w], Peak(Spread(init, cost, other)))
  {
    InitIsBelow(init, rates, cost, jobs, other, w);
    FactorIsOneOrMore(slow, fast, Sum(rates), init[w], Peak(Spread(init, cost, other)));
  }

  lemma {:induction false} SoonestPrefix(init: seq<real>, rates: seq<Rate>, cost: seq<seq<real>>, jobs: seq<real>,
                                         mine: seq<nat>, other: seq<nat>, slow: Rate, fast: Rate, n: nat, w: nat)
    requires Setting(init, rates, cost, jobs, mine, other, slow, fast) && n <= |jobs| && w < |init|
    ensures WithinRatesFactor(
              slow, fast, Sum(rates), Spread(init, cost, mine[..n])[w], Peak(Spread(init, cost, other)))
  {
    if n == 0 {
      assert mine[..0] == [];
      StartBound(init, rates, cost, jobs, mine, other, slow, fast, w);
    } else {
      TakeTwice(mine, n, n - 1);
      if w == mine[n - 1] {
        JobBound(init, rates, cost, jobs, mine, other, slow, fast, n - 1);
      } else {
        SoonestPrefix(init, rates, cost, jobs, mine, other, slow, fast, n - 1, w);
      }
    }
  }

  /** Whatever the workers are busy with and however different their rates:
      giving each job to the worker done soonest ends no later than
      1 + fast/slow - fast/total times any other assignment of the same jobs. */
  lemma RelatedMachinesBound(init: seq<real>, rates: seq<Rate>, cost: seq<seq<real>>, jobs: seq<real>,
                             mine: seq<nat>, other: seq<nat>, slow: Rate, fast: Rate)
    requires Setting(init, rates, cost, jobs, mine, other, slow, fast)
    ensures WithinRatesFactor(
              slow, fast, Sum(rates), Peak(Spread(init, cost, mine)), Peak(Spread(init, cost, other)))
  {
    var times := Spread(init, cost, mine);
    var w :| 0 <= w < |times| && times[w] == Peak(times);
    SoonestPrefix(init, rates, cost, jobs, mine, other, slow, fast, |jobs|, w);
    assert mine[..|jobs|] == mine;
  }

  // The policy.

  /** When a worker would be done with this much more to decode. */
  function DoneAt(worker: Worker, work: real): real {
    worker.QueueTime() + work / worker.decodeRate
  }

  lemma DoneAtOnce(worker: Worker)
    ensures DoneAt(worker, 0.0) == worker.QueueTime()
  {}

  /** When each worker would finish under an assignment. */
  function Finishes(ready: seq<Worker>, lots: seq<seq<Request>>): (times: seq<real>)
    requires |lots| == |ready|
    ensures |times| == |ready| && forall w | 0 <= w < |times| :: times[w] == DoneAt(ready[w], Work(P90, lots[w]))
  {
    seq(|ready|, w requires 0 <= w < |ready| => DoneAt(ready[w], Work(P90, lots[w])))
  }

  /** What each request costs each worker. */
  function Costs(order: seq<Request>, ready: seq<Worker>): (cost: seq<seq<real>>)
    ensures CostTable(cost, |order|, |ready|)
  {
    DecodeCost(Sizes(P90, order), DecodeRates(ready))
  }

  ghost predicate CostAt(cost: seq<seq<real>>, order: seq<Request>, ready: seq<Worker>, k: nat, w: nat)
    requires CostTable(cost, |order|, |ready|) && k < |order| && w < |ready|
  {
    cost[k][w] == order[k].p90 / ready[w].decodeRate
  }

  ghost predicate AreCosts(cost: seq<seq<real>>, order: seq<Request>, ready: seq<Worker>) {
    && CostTable(cost, |order|, |ready|)
    && forall k, w {:trigger CostAt(cost, order, ready, k, w)} | 0 <= k < |order| && 0 <= w < |ready| ::
         CostAt(cost, order, ready, k, w)
  }

  lemma CostsAreCosts(order: seq<Request>, ready: seq<Worker>)
    ensures AreCosts(Costs(order, ready), order, ready)
  {}

  lemma CostsAreCharged(order: seq<Request>, ready: seq<Worker>)
    ensures Charged(Costs(order, ready), DecodeRates(ready), Sizes(P90, order))
  {
    var cost, rates, jobs := Costs(order, ready), DecodeRates(ready), Sizes(P90, order);
    forall k, w | 0 <= k < |jobs| && 0 <= w < |rates| ensures ChargedAt(cost, rates, jobs, k, w) {
      QuotientCancels(jobs[k], rates[w]);
      QuotientPositive(jobs[k], rates[w]);
    }
  }

  lemma {:induction false} SpreadIsWork(ready: seq<Worker>, order: seq<Request>, cost: seq<seq<real>>,
                                        choice: seq<nat>, w: nat)
    requires AreCosts(cost, order, ready) && |choice| <= |order| && Within(choice, |ready|) && w < |ready|
    ensures Spread(QueueTimes(ready), cost, choice)[w] == DoneAt(ready[w], Work(P90, Picked(order, choice, w)))
  {
    if choice == [] {
      DoneAtOnce(ready[w]);
    } else {
      var k := |choice| - 1;
      SpreadIsWork(ready, order, cost, choice[..k], w);
      PicksNext(order, choice, w);
      CostIsLater(ready, order, cost, k, w, Work(P90, Picked(order, choice[..k], w)));
    }
  }

  lemma PicksNext(order: seq<Request>, choice: seq<nat>, w: nat)
    requires 0 < |choice| <= |order|
    ensures var k := |choice| - 1;
      Work(P90, Picked(order, choice, w))
      == Work(P90, Picked(order, choice[..k], w)) + if choice[k] == w then order[k].p90 else 0.0
  {
    var k := |choice| - 1;
    var picked := Picked(order, choice[..k], w);
    assert (picked + [order[k]])[..|picked|] == picked && picked + [] == picked;
  }

  lemma CostIsLater(ready: seq<Worker>, order: seq<Request>, cost: seq<seq<real>>, k: nat, w: nat, work: real)
    requires AreCosts(cost, order, ready) && k < |order| && w < |ready|
    ensures DoneAt(ready[w], work + order[k].p90) == DoneAt(ready[w], work) + cost[k][w]
  {
    assert CostAt(cost, order, ready, k, w);
    QuotientAdds(work, order[k].p90, ready[w].decodeRate);
  }

  lemma SpreadIsFinishes(ready: seq<Worker>, order: seq<Request>, lots: seq<seq<Request>>, choice: seq<nat>)
    requires |lots| == |ready| && |choice| == |order| && Within(choice, |ready|)
    requires forall w | 0 <= w < |lots| :: multiset(Picked(order, choice, w)) == multiset(lots[w])
    ensures Spread(QueueTimes(ready), Costs(order, ready), choice) == Finishes(ready, lots)
  {
    CostsAreCosts(order, ready);
    var times := Spread(QueueTimes(ready), Costs(order, ready), choice);
    forall w | 0 <= w < |ready| ensures times[w] == Finishes(ready, lots)[w] {
      SpreadIsWork(ready, order, Costs(order, ready), choice, w);
      WorkPermutes(P90, Picked(order, choice, w), lots[w]);
    }
  }

  lemma ChoosesSoonest(init: seq<real>, cost: seq<seq<real>>)
    requires init != [] && CostTable(cost, |cost|, |init|)
    ensures Soonest(init, cost, Choose(init, cost, |cost|))
  {
    var choice := Choose(init, cost, |cost|);
    forall k | 0 <= k < |choice| ensures SoonestAt(init, cost, choice, k) {
      ChooseAt(init, cost, k);
    }
  }

  lemma SettingIs(ready: seq<Worker>, order: seq<Request>, mine: seq<nat>, other: seq<nat>, slow: Rate, fast: Rate)
    requires ready != [] && Soonest(QueueTimes(ready), Costs(order, ready), mine)
    requires |other| == |order| && Within(other, |ready|)
    requires forall w | 0 <= w < |ready| :: slow <= ready[w].decodeRate <= fast
    ensures Setting(QueueTimes(ready), DecodeRates(ready), Costs(order, ready), Sizes(P90, order),
                    mine, other, slow, fast)
  {
    CostsAreCharged(order, ready);
    SumOfRates(DecodeRates(ready), 0);
  }

  /** The choices the policy makes, and those of a rival. */
  lemma PolicySetting(items: seq<Request>, ready: seq<Worker>, rival: seq<seq<Request>>, slow: Rate, fast: Rate)
      returns (cost: seq<seq<real>>, jobs: seq<real>, mine: seq<nat>, other: seq<nat>)
    requires ready != [] && Rival(rival, items, ready)
    requires forall w | 0 <= w < |ready| :: slow <= ready[w].decodeRate <= fast
    ensures Setting(QueueTimes(ready), DecodeRates(ready), cost, jobs, mine, other, slow, fast)
    ensures Spread(QueueTimes(ready), cost, mine) == Finishes(ready, Contents(LoadProportional(items, ready)))
    ensures Spread(QueueTimes(ready), cost, other) == Finishes(ready, rival)
  {
    var order, init := LongestFirst(items), QueueTimes(ready);
    cost, jobs := Costs(order, ready), Sizes(P90, order);
    mine := Choose(init, cost, |order|);
    SortPermutes(ByP90Descending, items);
    other := AssignmentIsChoice(order, rival);
    ChoosesSoonest(init, cost);
    SettingIs(ready, order, mine, other, slow, fast);
    SpreadIsFinishes(ready, order, rival, other);
    SpreadIsFinishes(ready, order, Lots(order, mine, |ready|), mine);
    ContentsOfParcels(ready, Lots(order, mine, |ready|));
  }

  /** Load-proportional placement with anything in the queues and any decode
      rates: its makespan is at most 1 + fast/slow - fast/total times that of
      every other assignment. */
  lemma LoadProportionalRatesBound(items: seq<Request>, ready: seq<Worker>, rival: seq<seq<Request>>,
                                   slow: Rate, fast: Rate)
    requires ready != [] && Rival(rival, items, ready)
    requires forall w | 0 <= w < |ready| :: slow <= ready[w].decodeRate <= fast
    ensures Sum(DecodeRates(ready)) > 0.0
    ensures WithinRatesFactor(
              slow, fast, Sum(DecodeRates(ready)), Peak(Finishes(ready, Contents(LoadProportional(items, ready)))),
              Peak(Finishes(ready, rival)))
  {
    var cost, jobs, mine, other := PolicySetting(items, ready, rival, slow, fast);
    RelatedMachinesBound(QueueTimes(ready), DecodeRates(ready), cost, jobs, mine, other, slow, fast);
  }
}
