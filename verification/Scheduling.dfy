/** List scheduling on workers that already carry load: what always choosing a
    least loaded worker guarantees against every other assignment. */
module Scheduling {
  import opened Ordering

  function Sum(xs: seq<real>): real {
    if xs == [] then 0.0 else Sum(xs[..|xs| - 1]) + xs[|xs| - 1]
  }

  function Peak(xs: seq<real>): (m: real)
    requires xs != []
    ensures m in xs
    ensures forall i | 0 <= i < |xs| :: xs[i] <= m
  {
    if |xs| == 1 then xs[0]
    else
      var rest := Peak(xs[..|xs| - 1]);
      if rest < xs[|xs| - 1] then xs[|xs| - 1] else rest
  }

  /** m copies of x; kept apart from `*` so that the proofs stay linear. */
  ghost function Times(m: nat, x: real): real {
    if m == 0 then 0.0 else Times(m - 1, x) + x
  }

  lemma {:induction false} TimesIsProduct(m: nat, x: real)
    ensures Times(m, x) == m as real * x
  {
    if m > 0 {
      TimesIsProduct(m - 1, x);
      assert m as real * x == (m - 1) as real * x + x;
    }
  }

  lemma {:induction false} TimesAdds(m: nat, n: nat, x: real, y: real)
    ensures Times(m, x + y) == Times(m, x) + Times(m, y)
    ensures Times(m + n, x) == Times(m, x) + Times(n, x)
    ensures x <= y ==> Times(m, x) <= Times(m, y)
    decreases m + n
  {
    if m > 0 { TimesAdds(m - 1, n, x, y); }
    else if n > 0 { TimesAdds(0, n - 1, x, y); }
  }

  lemma {:induction false} TimesNonNegative(m: nat, x: real)
    requires x >= 0.0
    ensures Times(m, x) >= 0.0
  {
    if m > 0 { TimesNonNegative(m - 1, x); }
  }

  predicate Within(choice: seq<nat>, workers: nat) {
    forall k | 0 <= k < |choice| :: choice[k] < workers
  }

  /** The loads once the first |choice| jobs have gone where choice says. */
  function Load(init: seq<real>, jobs: seq<real>, choice: seq<nat>): (loads: seq<real>)
    requires |choice| <= |jobs| && Within(choice, |init|)
    ensures |loads| == |init|
  {
    if choice == [] then init
    else
      var k := |choice| - 1;
      var before := Load(init, jobs, choice[..k]);
      before[choice[k] := before[choice[k]] + jobs[k]]
  }

  /** The first of the least loaded: the (load, id) minimum of a list in id order. */
  ghost predicate IsLeast(loads: seq<real>, i: nat) {
    && i < |loads|
    && (forall j | 0 <= j < |loads| :: loads[i] <= loads[j])
    && (forall j | 0 <= j < i :: loads[i] < loads[j])
  }

  ghost predicate GreedyAt(init: seq<real>, jobs: seq<real>, choice: seq<nat>, k: nat)
    requires k < |choice| <= |jobs| && Within(choice, |init|)
  {
    IsLeast(Load(init, jobs, choice[..k]), choice[k])
  }

  ghost predicate Greedy(init: seq<real>, jobs: seq<real>, choice: seq<nat>) {
    && |choice| == |jobs|
    && Within(choice, |init|)
    && forall k {:trigger GreedyAt(init, jobs, choice, k)} | 0 <= k < |choice| :: GreedyAt(init, jobs, choice, k)
  }

  ghost predicate NoneNegative(xs: seq<real>) {
    forall i | 0 <= i < |xs| :: xs[i] >= 0.0
  }

  ghost predicate AtMost(xs: seq<real>, bound: real) {
    forall i | 0 <= i < |xs| :: xs[i] <= bound
  }

  ghost predicate AtLeast(xs: seq<real>, bound: real) {
    forall i | 0 <= i < |xs| :: bound <= xs[i]
  }

  lemma {:induction false} SumUpdate(xs: seq<real>, i: nat, delta: real)
    requires i < |xs|
    ensures Sum(xs[i := xs[i] + delta]) == Sum(xs) + delta
  {
    var n := |xs| - 1;
    var ys := xs[i := xs[i] + delta];
    if i == n {
      assert ys[..n] == xs[..n];
    } else {
      SumUpdate(xs[..n], i, delta);
      assert ys[..n] == xs[..n][i := xs[..n][i] + delta];
    }
  }

  /** No assignment creates or loses work. */
  lemma {:induction false} LoadConserves(init: seq<real>, jobs: seq<real>, choice: seq<nat>)
    requires |choice| <= |jobs| && Within(choice, |init|)
    ensures Sum(Load(init, jobs, choice)) == Sum(init) + Sum(jobs[..|choice|])
  {
    if choice == [] {
      assert jobs[..0] == [];
    } else {
      var k := |choice| - 1;
      LoadConserves(init, jobs, choice[..k]);
      SumUpdate(Load(init, jobs, choice[..k]), choice[k], jobs[k]);
      assert jobs[..k + 1][..k] == jobs[..k];
    }
  }

  lemma {:induction false} SumAtLeast(xs: seq<real>, bound: real)
    requires AtLeast(xs, bound)
    ensures Times(|xs|, bound) <= Sum(xs)
  {
    if xs != [] {
      var n := |xs| - 1;
      SumAtLeast(xs[..n], bound);
    }
  }

  lemma {:induction false} SumAtMost(xs: seq<real>, bound: real)
    requires AtMost(xs, bound)
    ensures Sum(xs) <= Times(|xs|, bound)
  {
    if xs != [] {
      var n := |xs| - 1;
      SumAtMost(xs[..n], bound);
    }
  }

  lemma {:induction false} SumMonotone(xs: seq<real>, n: nat)
    requires NoneNegative(xs) && n <= |xs|
    ensures Sum(xs[..n]) <= Sum(xs)
  {
    if n == |xs| {
      assert xs[..n] == xs;
    } else {
      SumMonotone(xs[..|xs| - 1], n);
      assert xs[..|xs| - 1][..n] == xs[..n];
    }
  }

  /** Loads only grow as more jobs are placed. */
  lemma {:induction false} LoadGrows(init: seq<real>, jobs: seq<real>, choice: seq<nat>, n: nat, w: nat)
    requires |choice| <= |jobs| && Within(choice, |init|) && NoneNegative(jobs) && n <= |choice| && w < |init|
    ensures Load(init, jobs, choice[..n])[w] <= Load(init, jobs, choice)[w]
  {
    if n == |choice| {
      assert choice[..n] == choice;
    } else {
      var k := |choice| - 1;
      LoadGrows(init, jobs, choice[..k], n, w);
      assert choice[..k][..n] == choice[..n];
    }
  }

  lemma InitBelowPeak(init: seq<real>, jobs: seq<real>, choice: seq<nat>, w: nat)
    requires |choice| <= |jobs| && Within(choice, |init|) && NoneNegative(jobs) && w < |init|
    ensures init[w] <= Peak(Load(init, jobs, choice))
  {
    LoadGrows(init, jobs, choice, 0, w);
    assert choice[..0] == [];
    assert init[w] <= Load(init, jobs, choice)[w];
  }

  /** Every job fits under the peak of every assignment. */
  lemma JobBelowPeak(init: seq<real>, jobs: seq<real>, choice: seq<nat>, k: nat)
    requires |choice| == |jobs| && Within(choice, |init|) && NoneNegative(init) && NoneNegative(jobs) && k < |jobs|
    ensures jobs[k] <= Peak(Load(init, jobs, choice))
  {
    var w := choice[k];
    LoadGrows(init, jobs, choice, k + 1, w);
    assert choice[..k + 1][..k] == choice[..k];
    LoadGrows(init, jobs, choice[..k], 0, w);
    assert choice[..k][..0] == [];
  }

  /** A least load is at most the average. */
  lemma LeastBelowAverage(loads: seq<real>, i: nat)
    requires IsLeast(loads, i)
    ensures Times(|loads|, loads[i]) <= Sum(loads)
  {
    SumAtLeast(loads, loads[i]);
  }

  /** Where the k-th job starts under the greedy rule, against any other
      assignment of all the jobs: m * start + job <= m * peak. */
  lemma GreedyStart(init: seq<real>, jobs: seq<real>, greedy: seq<nat>, other: seq<nat>, k: nat)
    requires NoneNegative(init) && NoneNegative(jobs) && Greedy(init, jobs, greedy)
    requires |other| == |jobs| && Within(other, |init|) && k < |jobs|
    ensures Times(|init|, Load(init, jobs, greedy[..k])[greedy[k]]) + jobs[k]
         <= Times(|init|, Peak(Load(init, jobs, other)))
  {
    assert GreedyAt(init, jobs, greedy, k);
    LeastBelowAverage(Load(init, jobs, greedy[..k]), greedy[k]);
    LoadConserves(init, jobs, greedy[..k]);
    assert jobs[..k + 1][..k] == jobs[..k];
    SumMonotone(jobs, k + 1);
    LoadConserves(init, jobs, other);
    assert jobs[..|other|] == jobs;
    SumAtMost(Load(init, jobs, other), Peak(Load(init, jobs, other)));
  }

  lemma ScaleUp(m: nat, start: real, job: real, opt: real)
    requires m >= 1 && job <= opt && Times(m, start) + job <= Times(m, opt)
    ensures Times(m, start + job) <= Times(2 * m - 1, opt)
  {
    TimesAdds(m, 0, start, job);
    TimesAdds(m - 1, 0, job, opt);
    TimesAdds(m, m - 1, opt, 0.0);
  }

  lemma {:induction false} GrahamPrefix(init: seq<real>, jobs: seq<real>, greedy: seq<nat>, other: seq<nat>, n: nat,
                                        w: nat)
    requires NoneNegative(init) && NoneNegative(jobs) && Greedy(init, jobs, greedy)
    requires |other| == |jobs| && Within(other, |init|) && n <= |jobs| && w < |init|
    ensures Times(|init|, Load(init, jobs, greedy[..n])[w]) <= Times(2 * |init| - 1, Peak(Load(init, jobs, other)))
  {
    var opt := Peak(Load(init, jobs, other));
    if n == 0 {
      assert greedy[..0] == [];
      InitBelowPeak(init, jobs, other, w);
      TimesGrow(|init|, init[w], opt);
    } else {
      TakeTwice(greedy, n, n - 1);
      if w == greedy[n - 1] {
        GreedyStart(init, jobs, greedy, other, n - 1);
        JobBelowPeak(init, jobs, other, n - 1);
        ScaleUp(|init|, Load(init, jobs, greedy[..n - 1])[w], jobs[n - 1], opt);
      } else {
        GrahamPrefix(init, jobs, greedy, other, n - 1, w);
      }
    }
  }

  lemma TimesGrow(m: nat, x: real, opt: real)
    requires m >= 1 && x <= opt && opt >= 0.0
    ensures Times(m, x) <= Times(2 * m - 1, opt)
  {
    TimesAdds(m, m - 1, x, opt);
    TimesAdds(m, m - 1, opt, 0.0);
    TimesNonNegative(m - 1, opt);
  }

  /** mine <= (2 - 1/m) * best */
  ghost predicate WithinListFactor(m: nat, mine: real, best: real) {
    m as real * mine <= (2.0 * m as real - 1.0) * best
  }

  /** mine <= (4/3 - 1/(3m)) * best */
  ghost predicate WithinLongestFirstFactor(m: nat, mine: real, best: real) {
    var scaled := m as real * mine;
    3.0 * scaled <= (4.0 * m as real - 1.0) * best
  }

  lemma TimesFactor(n: nat, factor: real, x: real)
    requires factor == n as real
    ensures Times(n, x) == factor * x
  {
    TimesIsProduct(n, x);
  }

  lemma ListFactor(m: nat, mine: real, best: real)
    requires m >= 1 && Times(m, mine) <= Times(2 * m - 1, best)
    ensures WithinListFactor(m, mine, best)
  {
    var factor := 2.0 * m as real - 1.0;
    var scaled, bound := m as real * mine, factor * best;
    TimesFactor(m, m as real, mine);
    TimesFactor(2 * m - 1, factor, best);
    assert scaled <= bound;
  }

  lemma LongestFirstFactor(m: nat, mine: real, best: real)
    requires m >= 1 && 3.0 * Times(m, mine) <= Times(4 * m - 1, best)
    ensures WithinLongestFirstFactor(m, mine, best)
  {
    var factor := 4.0 * m as real - 1.0;
    var scaled, bound := m as real * mine, factor * best;
    TimesFactor(m, m as real, mine);
    TimesFactor(4 * m - 1, factor, best);
    assert 3.0 * scaled <= bound;
  }

  /** Graham's list-scheduling bound, with initial loads: greedy placement peaks
      at no more than 2 - 1/m times any other assignment of the same jobs. */
  lemma ListSchedulingBound(init: seq<real>, jobs: seq<real>, greedy: seq<nat>, other: seq<nat>)
    requires init != [] && NoneNegative(init) && NoneNegative(jobs) && Greedy(init, jobs, greedy)
    requires |other| == |jobs| && Within(other, |init|)
    ensures WithinListFactor(|init|, Peak(Load(init, jobs, greedy)), Peak(Load(init, jobs, other)))
  {
    var loads := Load(init, jobs, greedy);
    var w :| 0 <= w < |loads| && loads[w] == Peak(loads);
    GrahamPrefix(init, jobs, greedy, other, |jobs|, w);
    assert greedy[..|jobs|] == greedy;
    ListFactor(|init|, loads[w], Peak(Load(init, jobs, other)));
  }

  /** A worker that got its last job at step k ends within that job of every
      other worker. */
  lemma GreedyIsBalanced(init: seq<real>, jobs: seq<real>, greedy: seq<nat>, k: nat, other: nat)
    requires NoneNegative(jobs) && Greedy(init, jobs, greedy) && other < |init|
    requires k < |greedy| && forall j | k < j < |greedy| :: greedy[j] != greedy[k]
    ensures Load(init, jobs, greedy)[greedy[k]] <= Load(init, jobs, greedy)[other] + jobs[k]
  {
    LastJobStays(init, jobs, greedy, k + 1, greedy[k]);
    LoadGrows(init, jobs, greedy, k, other);
    assert greedy[..k + 1][..k] == greedy[..k];
    assert GreedyAt(init, jobs, greedy, k);
  }

  lemma {:induction false} LastJobStays(init: seq<real>, jobs: seq<real>, choice: seq<nat>, n: nat, w: nat)
    requires |choice| <= |jobs| && Within(choice, |init|) && n <= |choice| && w < |init|
    requires forall j | n <= j < |choice| :: choice[j] != w
    ensures Load(init, jobs, choice[..n])[w] == Load(init, jobs, choice)[w]
  {
    if n == |choice| {
      assert choice[..n] == choice;
    } else {
      var k := |choice| - 1;
      LastJobStays(init, jobs, choice[..k], n, w);
      assert choice[..k][..n] == choice[..n];
    }
  }

  function Reals(counts: seq<nat>): (xs: seq<real>)
    ensures |xs| == |counts|
    ensures forall i | 0 <= i < |xs| :: xs[i] == counts[i] as real
  {
    seq(|counts|, i requires 0 <= i < |counts| => counts[i] as real)
  }

  ghost predicate Unit(jobs: seq<real>) {
    forall k | 0 <= k < |jobs| :: jobs[k] == 1.0
  }

  lemma {:induction false} UnitLoad(counts: seq<nat>, jobs: seq<real>, choice: seq<nat>, w: nat)
    requires |choice| <= |jobs| && Within(choice, |counts|) && Unit(jobs) && w < |counts|
    ensures Load(Reals(counts), jobs, choice)[w] == (counts[w] + Occurrences(w, choice)) as real
  {
    if choice != [] {
      UnitLoad(counts, jobs, choice[..|choice| - 1], w);
    }
  }

  /** With unit jobs greedy placement is optimal, whatever the loads before. */
  lemma UnitJobsOptimal(counts: seq<nat>, jobs: seq<real>, greedy: seq<nat>, other: seq<nat>)
    requires counts != [] && Unit(jobs) && Greedy(Reals(counts), jobs, greedy)
    requires |other| == |jobs| && Within(other, |counts|)
    ensures Peak(Load(Reals(counts), jobs, greedy)) <= Peak(Load(Reals(counts), jobs, other))
  {
    var init := Reals(counts);
    var loads, rival := Load(init, jobs, greedy), Load(init, jobs, other);
    var w :| 0 <= w < |loads| && loads[w] == Peak(loads);
    if w !in greedy {
      LastJobStays(init, jobs, greedy, 0, w);
      InitBelowPeak(init, jobs, other, w);
      assert greedy[..0] == [];
    } else {
      var k := LastJob(greedy, w);
      forall j | 0 <= j < |loads| ensures loads[w] - 1.0 <= loads[j] {
        GreedyIsBalanced(init, jobs, greedy, k, j);
      }
      UnitCounting(counts, jobs, greedy, other, w);
    }
  }

  /** If all greedy loads lie in {top - 1, top} and one is top, no other
      assignment of the same number of unit jobs stays below top. */
  lemma UnitCounting(counts: seq<nat>, jobs: seq<real>, greedy: seq<nat>, other: seq<nat>, w: nat)
    requires |greedy| == |other| == |jobs| && Unit(jobs)
    requires Within(greedy, |counts|) && Within(other, |counts|) && w < |counts|
    requires forall j | 0 <= j < |counts| ::
               Load(Reals(counts), jobs, greedy)[w] - 1.0 <= Load(Reals(counts), jobs, greedy)[j]
    ensures exists j | 0 <= j < |counts| :: Load(Reals(counts), jobs, greedy)[w] <= Load(Reals(counts), jobs, other)[j]
  {
    var init := Reals(counts);
    if forall j | 0 <= j < |counts| :: Load(init, jobs, other)[j] < Load(init, jobs, greedy)[w] {
      forall j | 0 <= j < |counts| ensures Load(init, jobs, other)[j] <= Load(init, jobs, greedy)[w] - 1.0 {
        UnitGap(counts, jobs, greedy, other, w, j);
      }
      SumsDiffer(Load(init, jobs, greedy), Load(init, jobs, other), w);
      LoadConserves(init, jobs, greedy);
      LoadConserves(init, jobs, other);
    }
  }

  lemma UnitGap(counts: seq<nat>, jobs: seq<real>, greedy: seq<nat>, other: seq<nat>, w: nat, j: nat)
    requires |greedy| == |other| == |jobs| && Unit(jobs)
    requires Within(greedy, |counts|) && Within(other, |counts|) && w < |counts| && j < |counts|
    requires Load(Reals(counts), jobs, other)[j] < Load(Reals(counts), jobs, greedy)[w]
    ensures Load(Reals(counts), jobs, other)[j] <= Load(Reals(counts), jobs, greedy)[w] - 1.0
  {
    UnitLoad(counts, jobs, greedy, w);
    UnitLoad(counts, jobs, other, j);
    var a, b := counts[j] + Occurrences(j, other), counts[w] + Occurrences(w, greedy);
    assert Load(Reals(counts), jobs, other)[j] == a as real && Load(Reals(counts), jobs, greedy)[w] == b as real;
    WholeGap(a, b);
  }

  lemma WholeGap(a: nat, b: nat)
    requires a as real < b as real
    ensures a as real <= b as real - 1.0
  {
    assert a <= b - 1;
  }

  lemma SumsDiffer(loads: seq<real>, rival: seq<real>, w: nat)
    requires w < |loads| == |rival| && AtMost(rival, loads[w] - 1.0)
    requires AtLeast(loads, loads[w] - 1.0)
    ensures Sum(rival) + 1.0 <= Sum(loads)
  {
    SumAtMost(rival, loads[w] - 1.0);
    SumUpdate(loads, w, -1.0);
    SumAtLeast(loads[w := loads[w] + -1.0], loads[w] - 1.0);
  }

  lemma {:induction false} LastJob(choice: seq<nat>, w: nat) returns (k: nat)
    requires w in choice
    ensures k < |choice| && choice[k] == w && forall j | k < j < |choice| :: choice[j] != w
  {
    var n := |choice| - 1;
    if choice[n] == w {
      k := n;
    } else {
      k := LastJob(choice[..n], w);
    }
  }

  // Longest job first on idle workers.

  ghost predicate Descending(jobs: seq<real>) {
    forall i, j | 0 <= i < j < |jobs| :: jobs[i] >= jobs[j]
  }

  ghost predicate Idle(init: seq<real>) {
    forall i | 0 <= i < |init| :: init[i] == 0.0
  }

  /** A job counts double when it cannot share a worker with another one of at
      least job length under the peak opt. */
  function Weights(jobs: seq<real>, limit: real): (ws: seq<real>)
    ensures |ws| == |jobs|
    ensures forall k | 0 <= k < |ws| :: ws[k] == if jobs[k] > limit then 2.0 else 1.0
  {
    seq(|jobs|, k requires 0 <= k < |jobs| => if jobs[k] > limit then 2.0 else 1.0)
  }

  /** A worker of weight below two carries no more than the limit. */
  lemma {:induction false} LightIsShort(init: seq<real>, jobs: seq<real>, choice: seq<nat>, limit: real, w: nat)
    requires |choice| <= |jobs| && Within(choice, |init|) && Idle(init) && w < |init| && limit >= 0.0
    ensures var load, weight := Load(init, jobs, choice)[w], Load(init, Weights(jobs, limit), choice)[w];
      && weight >= 0.0
      && (weight < 1.0 ==> weight == 0.0 && load == 0.0)
      && (weight < 2.0 ==> load <= limit)
  {
    if choice != [] {
      LightIsShort(init, jobs, choice[..|choice| - 1], limit, w);
    }
  }

  /** A worker whose load stays under the peak carries weight at most two. */
  lemma {:induction false} ShortIsLight(init: seq<real>, jobs: seq<real>, choice: seq<nat>, opt: real, least: real,
                                        w: nat)
    requires |choice| <= |jobs| && Within(choice, |init|) && Idle(init) && w < |init|
    requires 0.0 < least <= opt < 3.0 * least && forall k | 0 <= k < |choice| :: jobs[k] >= least
    ensures var load, weight := Load(init, jobs, choice)[w], Load(init, Weights(jobs, opt - least), choice)[w];
      && (weight == 0.0 || weight == 1.0 || weight >= 2.0)
      && load >= 0.0
      && (weight >= 1.0 ==> load >= least)
      && (weight >= 2.0 ==> load > opt - least)
      && (weight > 2.0 ==> load > opt)
  {
    if choice != [] {
      ShortIsLight(init, jobs, choice[..|choice| - 1], opt, least, w);
    }
  }

  lemma {:induction false} SumPositive(xs: seq<real>, n: nat)
    requires n < |xs| && forall i | 0 <= i < |xs| :: xs[i] >= 1.0
    ensures Sum(xs[..n]) + 1.0 <= Sum(xs[..n + 1])
  {
    assert xs[..n + 1][..n] == xs[..n];
  }

  /** The heart of the longest-first bound: while jobs are longer than a third
      of the best peak, the greedy loads do not exceed that peak at all. If the
      k-th job overflowed, every worker would already carry weight two, and the
      rival could not have placed one job more. */
  lemma {:induction false} LongJobsFit(init: seq<real>, jobs: seq<real>, greedy: seq<nat>, other: seq<nat>, n: nat,
                                       w: nat)
    requires Idle(init) && Descending(jobs) && NoneNegative(jobs) && Greedy(init, jobs, greedy)
    requires |other| == |jobs| && Within(other, |init|) && n <= |jobs| && w < |init|
    requires n > 0 ==> 3.0 * jobs[n - 1] > Peak(Load(init, jobs, other))
    ensures Load(init, jobs, greedy[..n])[w] <= Peak(Load(init, jobs, other))
  {
    var opt := Peak(Load(init, jobs, other));
    if n == 0 {
      InitBelowPeak(init, jobs, other, w);
      assert greedy[..0] == [];
    } else {
      var k := n - 1;
      TakeTwice(greedy, n, k);
      if w != greedy[k] {
        LongJobsFit(init, jobs, greedy, other, k, w);
      } else if Load(init, jobs, greedy[..n])[w] > opt {
        JobBelowPeak(init, jobs, other, k);
        GreedyIsHeavy(init, jobs, greedy, k, opt);
        RivalIsLight(init, jobs, other, n, opt);
        WeightsClash(init, Weights(jobs, opt - jobs[k]), greedy, other, k, 2.0);
      }
    }
  }

  lemma GreedyIsHeavy(init: seq<real>, jobs: seq<real>, greedy: seq<nat>, k: nat, opt: real)
    requires Idle(init) && Greedy(init, jobs, greedy) && k < |jobs| && jobs[k] <= opt
    requires Load(init, jobs, greedy[..k])[greedy[k]] + jobs[k] > opt
    ensures AtLeast(Load(init, Weights(jobs, opt - jobs[k]), greedy[..k]), 2.0)
  {
    var loads := Load(init, Weights(jobs, opt - jobs[k]), greedy[..k]);
    forall v | 0 <= v < |loads| ensures 2.0 <= loads[v] {
      LightIsShort(init, jobs, greedy[..k], opt - jobs[k], v);
      assert GreedyAt(init, jobs, greedy, k);
    }
  }

  lemma RivalIsLight(init: seq<real>, jobs: seq<real>, other: seq<nat>, n: nat, opt: real)
    requires Idle(init) && Descending(jobs) && NoneNegative(jobs) && |other| == |jobs| && Within(other, |init|)
    requires 0 < n <= |jobs| && jobs[n - 1] <= opt < 3.0 * jobs[n - 1]
    requires AtMost(Load(init, jobs, other), opt)
    ensures AtMost(Load(init, Weights(jobs, opt - jobs[n - 1]), other[..n]), 2.0)
  {
    var loads := Load(init, Weights(jobs, opt - jobs[n - 1]), other[..n]);
    forall v | 0 <= v < |loads| ensures loads[v] <= 2.0 {
      ShortIsLight(init, jobs, other[..n], opt, jobs[n - 1], v);
      LoadGrows(init, jobs, other, n, v);
    }
  }

  /** k jobs that weigh full on every worker leave no room for a job more. */
  lemma WeightsClash(init: seq<real>, ws: seq<real>, greedy: seq<nat>, other: seq<nat>, k: nat, full: real)
    requires k < |ws| == |greedy| == |other| && Within(greedy, |init|) && Within(other, |init|)
    requires forall i | 0 <= i < |ws| :: ws[i] >= 1.0
    requires AtLeast(Load(init, ws, greedy[..k]), full)
    ensures !AtMost(Load(init, ws, other[..k + 1]), full)
  {
    var mine, rival := Load(init, ws, greedy[..k]), Load(init, ws, other[..k + 1]);
    LoadConserves(init, ws, greedy[..k]);
    LoadConserves(init, ws, other[..k + 1]);
    assert |greedy[..k]| == k && |other[..k + 1]| == k + 1;
    SumPositive(ws, k);
    assert Sum(mine) + 1.0 <= Sum(rival);
    SumAtLeast(mine, full);
    if AtMost(rival, full) { SumAtMost(rival, full); }
  }

  lemma ScaleThird(m: nat, start: real, job: real, opt: real)
    requires m >= 1 && 3.0 * job <= opt && Times(m, start) + job <= Times(m, opt)
    ensures 3.0 * Times(m, start + job) <= Times(4 * m - 1, opt)
  {
    TimesAdds(m, 0, start, job);
    TimesAdds(m - 1, 0, job + job + job, opt);
    TimesAdds(m - 1, 0, job + job, job);
    TimesAdds(m - 1, 0, job, job);
    FourTimes(m, opt);
  }

  lemma FourTimes(m: nat, opt: real)
    requires m >= 1
    ensures Times(4 * m - 1, opt) == 3.0 * Times(m, opt) + Times(m - 1, opt)
  {
    TimesAdds(m, m - 1, opt, 0.0);
    TimesAdds(m, 2 * m - 1, opt, 0.0);
    TimesAdds(m, 3 * m - 1, opt, 0.0);
  }

  lemma ScaleOne(m: nat, load: real, opt: real)
    requires m >= 1 && load <= opt && opt >= 0.0
    ensures 3.0 * Times(m, load) <= Times(4 * m - 1, opt)
  {
    TimesAdds(m, 0, load, opt);
    TimesNonNegative(m - 1, opt);
    FourTimes(m, opt);
  }

  lemma {:induction false} LongestFirstPrefix(init: seq<real>, jobs: seq<real>, greedy: seq<nat>, other: seq<nat>,
                                              n: nat, w: nat)
    requires Idle(init) && Descending(jobs) && NoneNegative(jobs) && Greedy(init, jobs, greedy)
    requires |other| == |jobs| && Within(other, |init|) && n <= |jobs| && w < |init|
    ensures 3.0 * Times(|init|, Load(init, jobs, greedy[..n])[w])
         <= Times(4 * |init| - 1, Peak(Load(init, jobs, other)))
  {
    var m, opt := |init|, Peak(Load(init, jobs, other));
    InitBelowPeak(init, jobs, other, w);
    if n == 0 || 3.0 * jobs[n - 1] > opt {
      LongJobsFit(init, jobs, greedy, other, n, w);
      ScaleOne(m, Load(init, jobs, greedy[..n])[w], opt);
    } else {
      TakeTwice(greedy, n, n - 1);
      if w == greedy[n - 1] {
        GreedyStart(init, jobs, greedy, other, n - 1);
        ScaleThird(m, Load(init, jobs, greedy[..n - 1])[w], jobs[n - 1], opt);
      } else {
        LongestFirstPrefix(init, jobs, greedy, other, n - 1, w);
      }
    }
  }

  /** Graham's longest-first bound: on idle workers of equal speed, placing the
      jobs in descending order peaks at no more than 4/3 - 1/(3m) times any
      other assignment of the same jobs. */
  lemma LongestFirstBound(init: seq<real>, jobs: seq<real>, greedy: seq<nat>, other: seq<nat>)
    requires init != [] && Idle(init) && Descending(jobs) && NoneNegative(jobs) && Greedy(init, jobs, greedy)
    requires |other| == |jobs| && Within(other, |init|)
    ensures WithinLongestFirstFactor(|init|, Peak(Load(init, jobs, greedy)), Peak(Load(init, jobs, other)))
  {
    var loads := Load(init, jobs, greedy);
    var w :| 0 <= w < |loads| && loads[w] == Peak(loads);
    LongestFirstPrefix(init, jobs, greedy, other, |jobs|, w);
    assert greedy[..|jobs|] == greedy;
    LongestFirstFactor(|init|, loads[w], Peak(Load(init, jobs, other)));
  }

  // Longest job first on workers that already carry load.

  /** One for each worker whose load exceeds the limit to begin with. */
  function Laden(init: seq<real>, limit: real): (ws: seq<real>)
    ensures |ws| == |init|
    ensures forall w | 0 <= w < |ws| :: ws[w] == if init[w] > limit then 1.0 else 0.0
  {
    seq(|init|, w requires 0 <= w < |init| => if init[w] > limit then 1.0 else 0.0)
  }

  function Ones(n: nat): (ws: seq<real>)
    ensures |ws| == n && Unit(ws)
  {
    seq(n, k => 1.0)
  }

  /** A worker that was not laden and got no job is still below the limit. */
  lemma {:induction false} EmptyIsBelow(init: seq<real>, jobs: seq<real>, choice: seq<nat>, limit: real, w: nat)
    requires |choice| <= |jobs| && Within(choice, |init|) && w < |init|
    ensures var load, weight := Load(init, jobs, choice)[w], Load(Laden(init, limit), Ones(|jobs|), choice)[w];
      (weight >= 1.0 || weight == 0.0) && (weight == 0.0 ==> load <= limit)
  {
    if choice != [] {
      EmptyIsBelow(init, jobs, choice[..|choice| - 1], limit, w);
    }
  }

  /** A worker whose load stays under the peak holds one job longer than half
      the peak, or was laden, or neither. */
  lemma {:induction false} FitsOnce(init: seq<real>, jobs: seq<real>, choice: seq<nat>, opt: real, least: real, w: nat)
    requires |choice| <= |jobs| && Within(choice, |init|) && w < |init| && NoneNegative(init)
    requires 0.0 < least && opt < least + least && forall k | 0 <= k < |choice| :: jobs[k] >= least
    ensures var load, weight := Load(init, jobs, choice)[w], Load(Laden(init, opt - least), Ones(|jobs|), choice)[w];
      && (weight == 0.0 || weight >= 1.0) && load >= 0.0
      && (weight >= 1.0 ==> load > opt - least)
      && (weight > 1.0 ==> load > opt)
  {
    if choice != [] {
      FitsOnce(init, jobs, choice[..|choice| - 1], opt, least, w);
    }
  }

  /** While jobs are longer than half the best peak, the greedy loads do not
      exceed it. If the k-th job overflowed, every worker would be laden or hold
      a job already, and the rival could not have placed one job more. */
  lemma {:induction false} BigJobsFit(init: seq<real>, jobs: seq<real>, greedy: seq<nat>, other: seq<nat>, n: nat,
                                      w: nat)
    requires NoneNegative(init) && Descending(jobs) && NoneNegative(jobs) && Greedy(init, jobs, greedy)
    requires |other| == |jobs| && Within(other, |init|) && n <= |jobs| && w < |init|
    requires n > 0 ==> jobs[n - 1] + jobs[n - 1] > Peak(Load(init, jobs, other))
    ensures Load(init, jobs, greedy[..n])[w] <= Peak(Load(init, jobs, other))
  {
    var opt := Peak(Load(init, jobs, other));
    InitBelowPeak(init, jobs, other, w);
    if n == 0 {
      assert greedy[..0] == [];
    } else {
      var k := n - 1;
      TakeTwice(greedy, n, k);
      if w != greedy[k] {
        BigJobsFit(init, jobs, greedy, other, k, w);
      } else if Load(init, jobs, greedy[..n])[w] > opt {
        GreedyIsFull(init, jobs, greedy, k, opt);
        RivalHasRoom(init, jobs, other, n, opt);
        WeightsClash(Laden(init, opt - jobs[k]), Ones(|jobs|), greedy, other, k, 1.0);
      }
    }
  }

  lemma GreedyIsFull(init: seq<real>, jobs: seq<real>, greedy: seq<nat>, k: nat, opt: real)
    requires Greedy(init, jobs, greedy) && k < |jobs|
    requires Load(init, jobs, greedy[..k])[greedy[k]] + jobs[k] > opt
    ensures AtLeast(Load(Laden(init, opt - jobs[k]), Ones(|jobs|), greedy[..k]), 1.0)
  {
    var loads := Load(Laden(init, opt - jobs[k]), Ones(|jobs|), greedy[..k]);
    forall v | 0 <= v < |loads| ensures 1.0 <= loads[v] {
      EmptyIsBelow(init, jobs, greedy[..k], opt - jobs[k], v);
      assert GreedyAt(init, jobs, greedy, k);
    }
  }

  lemma RivalHasRoom(init: seq<real>, jobs: seq<real>, other: seq<nat>, n: nat, opt: real)
    requires NoneNegative(init) && Descending(jobs) && NoneNegative(jobs) && |other| == |jobs| && Within(other, |init|)
    requires 0 < n <= |jobs| && 0.0 <= opt < jobs[n - 1] + jobs[n - 1]
    requires AtMost(Load(init, jobs, other), opt)
    ensures AtMost(Load(Laden(init, opt - jobs[n - 1]), Ones(|jobs|), other[..n]), 1.0)
  {
    var loads := Load(Laden(init, opt - jobs[n - 1]), Ones(|jobs|), other[..n]);
    forall v | 0 <= v < |loads| ensures loads[v] <= 1.0 {
      FitsOnce(init, jobs, other[..n], opt, jobs[n - 1], v);
      LoadGrows(init, jobs, other, n, v);
    }
  }

  lemma ScaleHalf(m: nat, start: real, job: real, opt: real)
    requires m >= 1 && job + job <= opt && Times(m, start) + job <= Times(m, opt)
    ensures 2.0 * Times(m, start + job) <= Times(3 * m - 1, opt)
  {
    TimesAdds(m, 0, start, job);
    TimesAdds(m - 1, 0, job + job, opt);
    TimesAdds(m - 1, 0, job, job);
    ThreeTimes(m, opt);
  }

  lemma ThreeTimes(m: nat, opt: real)
    requires m >= 1
    ensures Times(3 * m - 1, opt) == 2.0 * Times(m, opt) + Times(m - 1, opt)
  {
    TimesAdds(m, m - 1, opt, 0.0);
    TimesAdds(m, 2 * m - 1, opt, 0.0);
  }

  lemma ScaleWhole(m: nat, load: real, opt: real)
    requires m >= 1 && load <= opt && opt >= 0.0
    ensures 2.0 * Times(m, load) <= Times(3 * m - 1, opt)
  {
    TimesAdds(m, 0, load, opt);
    TimesNonNegative(m - 1, opt);
    ThreeTimes(m, opt);
  }

  lemma {:induction false} LoadedLongestFirstPrefix(
      init: seq<real>, jobs: seq<real>, greedy: seq<nat>, other: seq<nat>, n: nat, w: nat)
    requires NoneNegative(init) && Descending(jobs) && NoneNegative(jobs) && Greedy(init, jobs, greedy)
    requires |other| == |jobs| && Within(other, |init|) && n <= |jobs| && w < |init|
    ensures 2.0 * Times(|init|, Load(init, jobs, greedy[..n])[w])
         <= Times(3 * |init| - 1, Peak(Load(init, jobs, other)))
  {
    var m, opt := |init|, Peak(Load(init, jobs, other));
    InitBelowPeak(init, jobs, other, w);
    if n == 0 || jobs[n - 1] + jobs[n - 1] > opt {
      BigJobsFit(init, jobs, greedy, other, n, w);
      ScaleWhole(m, Load(init, jobs, greedy[..n])[w], opt);
    } else {
      TakeTwice(greedy, n, n - 1);
      if w == greedy[n - 1] {
        GreedyStart(init, jobs, greedy, other, n - 1);
        ScaleHalf(m, Load(init, jobs, greedy[..n - 1])[w], jobs[n - 1], opt);
      } else {
        LoadedLongestFirstPrefix(init, jobs, greedy, other, n - 1, w);
      }
    }
  }

  /** mine <= (3/2 - 1/(2m)) * best */
  ghost predicate WithinLoadedLongestFirstFactor(m: nat, mine: real, best: real) {
    var scaled := m as real * mine;
    2.0 * scaled <= (3.0 * m as real - 1.0) * best
  }

  lemma LoadedLongestFirstFactor(m: nat, mine: real, best: real)
    requires m >= 1 && 2.0 * Times(m, mine) <= Times(3 * m - 1, best)
    ensures WithinLoadedLongestFirstFactor(m, mine, best)
  {
    var factor := 3.0 * m as real - 1.0;
    var scaled, bound := m as real * mine, factor * best;
    TimesFactor(m, m as real, mine);
    TimesFactor(3 * m - 1, factor, best);
    assert 2.0 * scaled <= bound;
  }

  /** On workers of equal speed that already carry any load, placing the jobs in
      descending order peaks at no more than 3/2 - 1/(2m) times any other
      assignment of the same jobs. */
  lemma LoadedLongestFirstBound(init: seq<real>, jobs: seq<real>, greedy: seq<nat>, other: seq<nat>)
    requires init != [] && NoneNegative(init) && Descending(jobs) && NoneNegative(jobs) && Greedy(init, jobs, greedy)
    requires |other| == |jobs| && Within(other, |init|)
    ensures WithinLoadedLongestFirstFactor(|init|, Peak(Load(init, jobs, greedy)), Peak(Load(init, jobs, other)))
  {
    LoadedLongestFirstPeak(init, jobs, greedy, other);
    LoadedLongestFirstFactor(|init|, Peak(Load(init, jobs, greedy)), Peak(Load(init, jobs, other)));
  }

  lemma LoadedLongestFirstPeak(init: seq<real>, jobs: seq<real>, greedy: seq<nat>, other: seq<nat>)
    requires init != [] && NoneNegative(init) && Descending(jobs) && NoneNegative(jobs) && Greedy(init, jobs, greedy)
    requires |other| == |jobs| && Within(other, |init|)
    ensures 2.0 * Times(|init|, Peak(Load(init, jobs, greedy))) <= Times(3 * |init| - 1, Peak(Load(init, jobs, other)))
  {
    var loads := Load(init, jobs, greedy);
    var w :| 0 <= w < |loads| && loads[w] == Peak(loads);
    LoadedLongestFirstPrefix(init, jobs, greedy, other, |jobs|, w);
    assert greedy[..|jobs|] == greedy;
  }
}
