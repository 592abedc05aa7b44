/** The group placement policies, and the scheduling guarantees the greedy ones
    inherit. A worker's place in the id-sorted ready list stands for its id, so
    the first least loaded worker is the (load, id) minimum. */
module Placement {
  import opened Outcomes
  import opened Ordering
  import opened Models
  import opened Scheduling

  /** What one worker was given. */
  datatype Parcel = Parcel(worker: Worker, requests: seq<Request>)

  function FirstLeast(loads: seq<real>): (i: nat)
    requires loads != []
    ensures IsLeast(loads, i)
  {
    if |loads| == 1 then 0
    else
      var n := |loads| - 1;
      var best := FirstLeast(loads[..n]);
      if loads[n] < loads[best] then n else best
  }

  /** cost[k][w] is what the k-th request would add to worker w. */
  ghost predicate CostTable(cost: seq<seq<real>>, n: nat, m: nat) {
    |cost| == n && forall k | 0 <= k < n :: |cost[k]| == m
  }

  /** Loads after the requests went where choice says. */
  function Spread(init: seq<real>, cost: seq<seq<real>>, choice: seq<nat>): (loads: seq<real>)
    requires CostTable(cost, |cost|, |init|) && |choice| <= |cost| && Within(choice, |init|)
    ensures |loads| == |init|
  {
    if choice == [] then init
    else
      var k := |choice| - 1;
      var before := Spread(init, cost, choice[..k]);
      before[choice[k] := before[choice[k]] + cost[k][choice[k]]]
  }

  /** The greedy rule: each request to the first least loaded worker. */
  function Choose(init: seq<real>, cost: seq<seq<real>>, n: nat): (choice: seq<nat>)
    requires init != [] && CostTable(cost, |cost|, |init|) && n <= |cost|
    ensures |choice| == n && Within(choice, |init|)
  {
    if n == 0 then []
    else
      var sofar := Choose(init, cost, n - 1);
      sofar + [FirstLeast(Spread(init, cost, sofar))]
  }

  /** The requests choice sends to worker w. */
  function Picked(order: seq<Request>, choice: seq<nat>, w: nat): seq<Request>
    requires |choice| <= |order|
  {
    if choice == [] then []
    else
      var k := |choice| - 1;
      Picked(order, choice[..k], w) + if choice[k] == w then [order[k]] else []
  }

  function Lots(order: seq<Request>, choice: seq<nat>, m: nat): (lots: seq<seq<Request>>)
    requires |choice| <= |order|
    ensures |lots| == m && forall w | 0 <= w < m :: lots[w] == Picked(order, choice, w)
  {
    seq(m, w requires 0 <= w < m => Picked(order, choice, w))
  }

  function Parcels(ready: seq<Worker>, lots: seq<seq<Request>>): (ps: seq<Parcel>)
    requires |lots| == |ready|
    ensures |ps| == |ready|
    ensures forall w | 0 <= w < |ps| :: ps[w] == Parcel(ready[w], lots[w])
  {
    seq(|ready|, w requires 0 <= w < |ready| => Parcel(ready[w], lots[w]))
  }

  lemma SpreadStep(init: seq<real>, cost: seq<seq<real>>, choice: seq<nat>, w: nat)
    requires CostTable(cost, |cost|, |init|) && |choice| < |cost| && Within(choice, |init|) && w < |init|
    ensures var before := Spread(init, cost, choice);
      Spread(init, cost, choice + [w]) == before[w := before[w] + cost[|choice|][w]]
  {
    assert (choice + [w])[..|choice|] == choice;
  }

  lemma PickedStep(order: seq<Request>, choice: seq<nat>, w: nat)
    requires |choice| < |order|
    ensures forall v: nat ::
              Picked(order, choice + [w], v) == Picked(order, choice, v) + if v == w then [order[|choice|]] else []
  {
    assert (choice + [w])[..|choice|] == choice;
  }

  lemma LotsStep(order: seq<Request>, choice: seq<nat>, w: nat, m: nat)
    requires |choice| < |order| && w < m
    ensures var before := Lots(order, choice, m);
      Lots(order, choice + [w], m) == before[w := before[w] + [order[|choice|]]]
  {
    var before := Lots(order, choice, m);
    var after := before[w := before[w] + [order[|choice|]]];
    PickedStep(order, choice, w);
    forall v | 0 <= v < m ensures after[v] == Picked(order, choice + [w], v) {
      assert before[v] + [] == before[v];
    }
  }

  lemma ChooseStep(init: seq<real>, cost: seq<seq<real>>, k: nat)
    requires init != [] && CostTable(cost, |cost|, |init|) && k < |cost|
    ensures var sofar := Choose(init, cost, k);
      Choose(init, cost, k + 1) == sofar + [FirstLeast(Spread(init, cost, sofar))]
  {}

  /** The shared loop of the greedy policies: keep a virtual load per worker,
      give each request to the least loaded, charge it. */
  method ListSchedule(order: seq<Request>, init: seq<real>, cost: seq<seq<real>>) returns (lots: seq<seq<Request>>)
    requires init != [] && CostTable(cost, |order|, |init|)
    ensures lots == Lots(order, Choose(init, cost, |order|), |init|)
  {
    var virtual := init;
    lots := seq(|init|, _ => []);
    ghost var choice := [];
    for k := 0 to |order|
      invariant choice == Choose(init, cost, k)
      invariant virtual == Spread(init, cost, choice)
      invariant lots == Lots(order, choice, |init|)
    {
      var w := FirstLeast(virtual);
      ChooseStep(init, cost, k);
      SpreadStep(init, cost, choice, w);
      LotsStep(order, choice, w, |init|);
      lots := lots[w := lots[w] + [order[k]]];
      virtual := virtual[w := virtual[w] + cost[k][w]];
      choice := choice + [w];
    }
  }

  // Loads and sizes each policy feeds the loop.

  function Tokens(q: Request): (t: real)
    ensures t >= 0.0
  {
    q.promptTokens as real + q.p90.Floor as real
  }

  function One(q: Request): real { 1.0 }
  function P90(q: Request): real { q.p90 }
  function DecodeSeconds(rate: Rate): Request -> real { (q: Request) => q.p90 / rate }

  function Sizes(size: Request -> real, order: seq<Request>): (s: seq<real>)
    ensures |s| == |order| && forall k | 0 <= k < |s| :: s[k] == size(order[k])
  {
    seq(|order|, k requires 0 <= k < |order| => size(order[k]))
  }

  function TokenLoad(ready: seq<Worker>): (loads: seq<real>)
    ensures |loads| == |ready|
    ensures forall w | 0 <= w < |loads| :: loads[w] == (ready[w].queuedPrefill + ready[w].activeDecode) as real
  {
    seq(|ready|, w requires 0 <= w < |ready| => (ready[w].queuedPrefill + ready[w].activeDecode) as real)
  }

  function RequestLoad(ready: seq<Worker>): (counts: seq<nat>)
    ensures |counts| == |ready|
    ensures forall w | 0 <= w < |counts| :: counts[w] == ready[w].InFlight()
  {
    seq(|ready|, w requires 0 <= w < |ready| => ready[w].InFlight())
  }

  function QueueTimes(ready: seq<Worker>): (times: seq<real>)
    ensures |times| == |ready| && forall w | 0 <= w < |times| :: times[w] == ready[w].QueueTime()
  {
    seq(|ready|, w requires 0 <= w < |ready| => ready[w].QueueTime())
  }

  function DecodeRates(ready: seq<Worker>): (rates: seq<Rate>)
    ensures |rates| == |ready| && forall w | 0 <= w < |rates| :: rates[w] == ready[w].decodeRate
  {
    seq(|ready|, w requires 0 <= w < |ready| => ready[w].decodeRate)
  }

  /** Every worker is charged the same for a request. */
  function SameCost(sizes: seq<real>, m: nat): (cost: seq<seq<real>>)
    ensures CostTable(cost, |sizes|, m)
    ensures forall k, w | 0 <= k < |sizes| && 0 <= w < m :: cost[k][w] == sizes[k]
  {
    seq(|sizes|, k requires 0 <= k < |sizes| => seq(m, _ => sizes[k]))
  }

  /** A worker is charged the time its decode rate needs. */
  function DecodeCost(sizes: seq<real>, rates: seq<Rate>): (cost: seq<seq<real>>)
    ensures CostTable(cost, |sizes|, |rates|)
    ensures forall k, w | 0 <= k < |sizes| && 0 <= w < |rates| :: cost[k][w] == sizes[k] / rates[w]
  {
    seq(|sizes|, k requires 0 <= k < |sizes| => seq(|rates|, w requires 0 <= w < |rates| => sizes[k] / rates[w]))
  }

  // The policies' decisions as functions of the gate's output.

  function LongestFirst(items: seq<Request>): (order: seq<Request>)
    ensures |order| == |items|
  {
    SortPermutes(ByP90Descending, items);
    SortBy(ByP90Descending, items)
  }

  function LeastQueued(items: seq<Request>, ready: seq<Worker>): (ps: seq<Parcel>)
    requires ready != []
    ensures |ps| == |ready|
  {
    var order := LongestFirst(items);
    Parcels(ready, Lots(order, Choose(TokenLoad(ready), SameCost(Sizes(Tokens, order), |ready|), |order|), |ready|))
  }

  function LeastRequests(items: seq<Request>, ready: seq<Worker>): (ps: seq<Parcel>)
    requires ready != []
    ensures |ps| == |ready|
  {
    Parcels(
      ready,
      Lots(items, Choose(Reals(RequestLoad(ready)), SameCost(Sizes(One, items), |ready|), |items|), |ready|))
  }

  function LoadProportional(items: seq<Request>, ready: seq<Worker>): (ps: seq<Parcel>)
    requires ready != []
    ensures |ps| == |ready|
  {
    var order := LongestFirst(items);
    Parcels(
      ready,
      Lots(order, Choose(QueueTimes(ready), DecodeCost(Sizes(P90, order), DecodeRates(ready)), |order|), |ready|))
  }

  function Rotate(n: nat, m: nat, offset: nat): (choice: seq<nat>)
    requires m > 0
    ensures |choice| == n && forall k | 0 <= k < n :: choice[k] == (offset + k) % m
  {
    seq(n, k requires 0 <= k < n => (offset + k) % m)
  }

  function RoundRobin(items: seq<Request>, ready: seq<Worker>, offset: nat): (ps: seq<Parcel>)
    requires ready != []
    ensures |ps| == |ready|
  {
    Parcels(ready, Lots(items, Rotate(|items|, |ready|, offset), |ready|))
  }

  function EvenSplit(items: seq<Request>, ready: seq<Worker>): (ps: seq<Parcel>)
    requires ready != []
    ensures |ps| == |ready|
  {
    RoundRobin(items, ready, 0)
  }

  function PackTime(w: Worker, q: Request): real {
    w.QueueTime() + w.Prefill(q) as real / w.prefillRate
  }

  predicate PackBefore(a: Worker, b: Worker, q: Request) {
    PackTime(a, q) < PackTime(b, q) || (PackTime(a, q) == PackTime(b, q) && a.running < b.running)
  }

  function PackTarget(ready: seq<Worker>, q: Request): (i: nat)
    requires ready != []
    ensures i < |ready|
    ensures forall j | 0 <= j < |ready| ::
              !PackBefore(ready[j], ready[i], q) && (j < i ==> PackBefore(ready[i], ready[j], q))
  {
    if |ready| == 1 then 0
    else
      var n := |ready| - 1;
      var best := PackTarget(ready[..n], q);
      if PackBefore(ready[n], ready[best], q) then n else best
  }

  function FixedPack(items: seq<Request>, ready: seq<Worker>): seq<Parcel>
    requires items != [] && ready != []
  {
    [Parcel(ready[PackTarget(ready, items[0])], items)]
  }

  // Every policy partitions the group.

  function All(lots: seq<seq<Request>>): multiset<Request> {
    if lots == [] then multiset{} else All(lots[..|lots| - 1]) + multiset(lots[|lots| - 1])
  }

  function Contents(ps: seq<Parcel>): (lots: seq<seq<Request>>)
    ensures |lots| == |ps| && forall i | 0 <= i < |ps| :: lots[i] == ps[i].requests
  {
    seq(|ps|, i requires 0 <= i < |ps| => ps[i].requests)
  }

  /** Each request goes to exactly one worker, each worker is listed once, and
      all of them may serve the group. */
  ghost predicate Partitions(ps: seq<Parcel>, items: seq<Request>, ready: seq<Worker>) {
    && All(Contents(ps)) == multiset(items)
    && (forall i | 0 <= i < |ps| :: ps[i].worker in ready)
    && (forall i, j | 0 <= i < j < |ps| :: ps[i].worker.id != ps[j].worker.id)
  }

  lemma {:induction false} AllUpdate(lots: seq<seq<Request>>, w: nat, q: Request)
    requires w < |lots|
    ensures All(lots[w := lots[w] + [q]]) == All(lots) + multiset{q}
  {
    var n := |lots| - 1;
    var after := lots[w := lots[w] + [q]];
    if w == n {
      assert after[..n] == lots[..n];
    } else {
      AllUpdate(lots[..n], w, q);
      assert after[..n] == lots[..n][w := lots[..n][w] + [q]];
    }
  }

  lemma {:induction false} AllEmpty(lots: seq<seq<Request>>)
    requires forall w | 0 <= w < |lots| :: lots[w] == []
    ensures All(lots) == multiset{}
  {
    if lots != [] { AllEmpty(lots[..|lots| - 1]); }
  }

  /** Whatever the choice, nothing is lost and nothing is served twice. */
  lemma {:induction false} LotsPartition(order: seq<Request>, choice: seq<nat>, m: nat)
    requires |choice| <= |order| && Within(choice, m)
    ensures All(Lots(order, choice, m)) == multiset(order[..|choice|])
  {
    if choice == [] {
      AllEmpty(Lots(order, choice, m));
      assert order[..0] == [];
    } else {
      var k := |choice| - 1;
      LotsPartition(order, choice[..k], m);
      LotsStep(order, choice[..k], choice[k], m);
      assert choice == choice[..k] + [choice[k]];
      AllUpdate(Lots(order, choice[..k], m), choice[k], order[k]);
      TakeOneMore(order, k);
    }
  }

  lemma SpreadPartitions(order: seq<Request>, choice: seq<nat>, ready: seq<Worker>)
    requires |choice| == |order| && Within(choice, |ready|) && DistinctIds(ready)
    ensures Partitions(Parcels(ready, Lots(order, choice, |ready|)), order, ready)
  {
    var lots := Lots(order, choice, |ready|);
    LotsPartition(order, choice, |ready|);
    assert order[..|choice|] == order;
    assert Contents(Parcels(ready, lots)) == lots;
    forall i, j | 0 <= i < j < |ready| ensures ready[i].id != ready[j].id {
      assert IdOf(ready[i]) != IdOf(ready[j]);
    }
  }

  lemma LeastQueuedPartitions(items: seq<Request>, ready: seq<Worker>)
    requires ready != [] && DistinctIds(ready)
    ensures Partitions(LeastQueued(items, ready), items, ready)
  {
    var order := LongestFirst(items);
    SortPermutes(ByP90Descending, items);
    SpreadPartitions(order, Choose(TokenLoad(ready), SameCost(Sizes(Tokens, order), |ready|), |order|), ready);
  }

  lemma LeastRequestsPartitions(items: seq<Request>, ready: seq<Worker>)
    requires ready != [] && DistinctIds(ready)
    ensures Partitions(LeastRequests(items, ready), items, ready)
  {
    SpreadPartitions(items, Choose(Reals(RequestLoad(ready)), SameCost(Sizes(One, items), |ready|), |items|), ready);
  }

  lemma LoadProportionalPartitions(items: seq<Request>, ready: seq<Worker>)
    requires ready != [] && DistinctIds(ready)
    ensures Partitions(LoadProportional(items, ready), items, ready)
  {
    var order := LongestFirst(items);
    SortPermutes(ByP90Descending, items);
    SpreadPartitions(
      order, Choose(QueueTimes(ready), DecodeCost(Sizes(P90, order), DecodeRates(ready)), |order|), ready);
  }

  lemma RoundRobinPartitions(items: seq<Request>, ready: seq<Worker>, offset: nat)
    requires ready != [] && DistinctIds(ready)
    ensures Partitions(RoundRobin(items, ready, offset), items, ready)
  {
    SpreadPartitions(items, Rotate(|items|, |ready|, offset), ready);
  }

  lemma PackPartitions(items: seq<Request>, w: Worker, ready: seq<Worker>)
    requires w in ready
    ensures Partitions([Parcel(w, items)], items, ready)
  {
    var lots := Contents([Parcel(w, items)]);
    assert lots[..0] == [] && lots[0] == items;
    assert All(lots) == All(lots[..0]) + multiset(lots[0]);
  }

  // From choices to assignments.

  function Work(size: Request -> real, lot: seq<Request>): real {
    if lot == [] then 0.0 else Work(size, lot[..|lot| - 1]) + size(lot[|lot| - 1])
  }

  /** Final load of each worker under any assignment. */
  function Final(init: seq<real>, size: Request -> real, lots: seq<seq<Request>>): (loads: seq<real>)
    requires |lots| == |init|
    ensures |loads| == |init| && forall w | 0 <= w < |init| :: loads[w] == init[w] + Work(size, lots[w])
  {
    seq(|init|, w requires 0 <= w < |init| => init[w] + Work(size, lots[w]))
  }

  lemma {:induction false} WorkPermutes(size: Request -> real, a: seq<Request>, b: seq<Request>)
    requires multiset(a) == multiset(b)
    ensures Work(size, a) == Work(size, b)
  {
    assert |multiset(a)| == |multiset(b)|;
    if a != [] {
      var n := |a| - 1;
      DropLast(a);
      assert a[n] in multiset(b);
      var i :| 0 <= i < |b| && b[i] == a[n];
      Without(b, i);
      WorkPermutes(size, a[..n], b[..i] + b[i + 1..]);
      WorkRemove(size, b, i);
    }
  }

  lemma {:induction false} WorkRemove(size: Request -> real, b: seq<Request>, i: nat)
    requires i < |b|
    ensures Work(size, b) == Work(size, b[..i] + b[i + 1..]) + size(b[i])
  {
    var n := |b| - 1;
    var rest := b[..i] + b[i + 1..];
    if i == n {
      assert rest == b[..n];
    } else {
      WorkRemove(size, b[..n], i);
      assert rest[..|rest| - 1] == b[..n][..i] + b[..n][i + 1..];
    }
  }

  lemma {:induction false} ChoiceWork(size: Request -> real, init: seq<real>, order: seq<Request>, choice: seq<nat>,
                                      w: nat)
    requires |choice| <= |order| && Within(choice, |init|) && w < |init|
    ensures Load(init, Sizes(size, order), choice)[w] == init[w] + Work(size, Picked(order, choice, w))
  {
    if choice != [] {
      var k := |choice| - 1;
      ChoiceWork(size, init, order, choice[..k], w);
      var picked := Picked(order, choice[..k], w);
      assert (picked + [order[k]])[..|picked|] == picked && picked + [] == picked;
    }
  }

  lemma {:induction false} AllHas(lots: seq<seq<Request>>, q: Request) returns (w: nat, i: nat)
    requires q in All(lots)
    ensures w < |lots| && i < |lots[w]| && lots[w][i] == q
  {
    var n := |lots| - 1;
    if q in multiset(lots[n]) {
      w := n;
      i :| 0 <= i < |lots[n]| && lots[n][i] == q;
    } else {
      w, i := AllHas(lots[..n], q);
    }
  }

  lemma {:induction false} AllRemove(lots: seq<seq<Request>>, w: nat, i: nat)
    requires w < |lots| && i < |lots[w]|
    ensures All(lots) == All(lots[w := lots[w][..i] + lots[w][i + 1..]]) + multiset{lots[w][i]}
  {
    var n := |lots| - 1;
    var after := lots[w := lots[w][..i] + lots[w][i + 1..]];
    if w == n {
      assert after[..n] == lots[..n];
      Without(lots[n], i);
    } else {
      AllRemove(lots[..n], w, i);
      assert after[..n] == lots[..n][w := lots[w][..i] + lots[w][i + 1..]];
    }
  }

  /** Any assignment of the group is some choice for each request in turn. */
  lemma {:induction false} AssignmentIsChoice(order: seq<Request>, rival: seq<seq<Request>>) returns (choice: seq<nat>)
    requires All(rival) == multiset(order)
    ensures |choice| == |order| && Within(choice, |rival|)
    ensures forall w | 0 <= w < |rival| :: multiset(Picked(order, choice, w)) == multiset(rival[w])
  {
    if order == [] {
      choice := [];
      forall w | 0 <= w < |rival| ensures rival[w] == [] {
        if rival[w] != [] { AllRemove(rival, w, 0); }
      }
    } else {
      var n := |order| - 1;
      var w, rest := TakeLast(order, rival);
      var sofar := AssignmentIsChoice(order[..n], rest);
      choice := sofar + [w];
      forall v | 0 <= v < |rival| ensures multiset(Picked(order, choice, v)) == multiset(rival[v]) {
        PickedOnce(order, sofar, w, v);
      }
    }
  }

  lemma PickedOnce(order: seq<Request>, sofar: seq<nat>, w: nat, v: nat)
    requires |sofar| + 1 == |order|
    ensures multiset(Picked(order, sofar + [w], v))
         == multiset(Picked(order[..|sofar|], sofar, v)) + if v == w then multiset{order[|sofar|]} else multiset{}
  {
    PickedPrefix(order, sofar, v);
    PickedStep(order, sofar, w);
  }

  /** The worker that holds the last request, and the assignment without it. */
  lemma TakeLast(order: seq<Request>, rival: seq<seq<Request>>) returns (w: nat, rest: seq<seq<Request>>)
    requires order != [] && All(rival) == multiset(order)
    ensures w < |rival| == |rest| && All(rest) == multiset(order[..|order| - 1])
    ensures forall v | 0 <= v < |rival| ::
              multiset(rival[v]) == multiset(rest[v]) + if v == w then multiset{order[|order| - 1]} else multiset{}
  {
    var n := |order| - 1;
    assert order == order[..n] + [order[n]];
    assert multiset(order[..n]) == multiset(order) - multiset{order[n]};
    var i;
    w, i := AllHas(rival, order[n]);
    rest := rival[w := rival[w][..i] + rival[w][i + 1..]];
    AllRemove(rival, w, i);
    Without(rival[w], i);
  }

  lemma Without(lot: seq<Request>, i: nat)
    requires i < |lot|
    ensures multiset(lot) == multiset(lot[..i] + lot[i + 1..]) + multiset{lot[i]}
  {
    assert lot == lot[..i] + [lot[i]] + lot[i + 1..];
  }

  lemma {:induction false} PickedPrefix(order: seq<Request>, choice: seq<nat>, w: nat)
    requires |choice| < |order|
    ensures Picked(order, choice, w) == Picked(order[..|order| - 1], choice, w)
  {
    if choice != [] {
      PickedPrefix(order, choice[..|choice| - 1], w);
    }
  }

  /** The loads of an assignment are the loads of its choices. */
  lemma AssignmentLoads(size: Request -> real, init: seq<real>, order: seq<Request>, lots: seq<seq<Request>>,
                        choice: seq<nat>)
    requires |lots| == |init| && |choice| == |order| && Within(choice, |init|)
    requires forall w | 0 <= w < |lots| :: multiset(Picked(order, choice, w)) == multiset(lots[w])
    ensures Load(init, Sizes(size, order), choice) == Final(init, size, lots)
  {
    forall w | 0 <= w < |init| ensures Load(init, Sizes(size, order), choice)[w] == Final(init, size, lots)[w] {
      ChoiceWork(size, init, order, choice, w);
      WorkPermutes(size, Picked(order, choice, w), lots[w]);
    }
  }

  // The greedy rule at one common speed is greedy scheduling.

  ghost predicate Uniform(cost: seq<seq<real>>, jobs: seq<real>, m: nat) {
    CostTable(cost, |jobs|, m) && forall k, w | 0 <= k < |jobs| && 0 <= w < m :: cost[k][w] == jobs[k]
  }

  lemma {:induction false} SpreadIsLoad(init: seq<real>, cost: seq<seq<real>>, jobs: seq<real>, choice: seq<nat>)
    requires Uniform(cost, jobs, |init|) && |choice| <= |jobs| && Within(choice, |init|)
    ensures Spread(init, cost, choice) == Load(init, jobs, choice)
  {
    if choice != [] {
      SpreadIsLoad(init, cost, jobs, choice[..|choice| - 1]);
    }
  }

  lemma {:induction false} ChoosePrefix(init: seq<real>, cost: seq<seq<real>>, n: nat, k: nat)
    requires init != [] && CostTable(cost, |cost|, |init|) && k <= n <= |cost|
    ensures Choose(init, cost, n)[..k] == Choose(init, cost, k)
  {
    var c := Choose(init, cost, n);
    if k == n {
      TakeTwice(c, n, n);
    } else {
      TakeTwice(c, n - 1, k);
      ChooseStep(init, cost, n - 1);
      ChoosePrefix(init, cost, n - 1, k);
    }
  }

  lemma ChooseIsGreedy(init: seq<real>, cost: seq<seq<real>>, jobs: seq<real>)
    requires init != [] && Uniform(cost, jobs, |init|)
    ensures Greedy(init, jobs, Choose(init, cost, |jobs|))
  {
    var choice := Choose(init, cost, |jobs|);
    forall k | 0 <= k < |choice| ensures GreedyAt(init, jobs, choice, k) {
      ChooseAt(init, cost, k);
      SpreadIsLoad(init, cost, jobs, choice[..k]);
    }
  }

  /** The k-th choice goes by the loads the first k make. */
  lemma ChooseAt(init: seq<real>, cost: seq<seq<real>>, k: nat)
    requires init != [] && CostTable(cost, |cost|, |init|) && k < |cost|
    ensures Choose(init, cost, |cost|)[..k] == Choose(init, cost, k)
    ensures Choose(init, cost, |cost|)[k] == FirstLeast(Spread(init, cost, Choose(init, cost, k)))
  {
    ChoosePrefix(init, cost, |cost|, k);
    ChoosePrefix(init, cost, |cost|, k + 1);
    ChosenNext(init, cost, k, Choose(init, cost, |cost|));
  }

  lemma ChosenNext(init: seq<real>, cost: seq<seq<real>>, k: nat, choice: seq<nat>)
    requires init != [] && CostTable(cost, |cost|, |init|) && k < |cost| && k < |choice|
    requires choice[..k + 1] == Choose(init, cost, k + 1)
    ensures choice[k] == FirstLeast(Spread(init, cost, Choose(init, cost, k)))
  {
    assert choice[..k + 1][k] == choice[k];
  }

  // What the policies guarantee.

  ghost predicate Rival(rival: seq<seq<Request>>, items: seq<Request>, ready: seq<Worker>) {
    |rival| == |ready| && All(rival) == multiset(items)
  }

  /** A choice list and the assignment it makes, against a rival. */
  lemma RivalChoice(size: Request -> real, init: seq<real>, items: seq<Request>, order: seq<Request>,
                    mine: seq<nat>, rival: seq<seq<Request>>) returns (other: seq<nat>)
    requires |rival| == |init| && All(rival) == multiset(items) == multiset(order)
    requires |mine| == |order| && Within(mine, |init|)
    ensures |other| == |order| && Within(other, |init|)
    ensures Load(init, Sizes(size, order), other) == Final(init, size, rival)
    ensures Load(init, Sizes(size, order), mine) == Final(init, size, Lots(order, mine, |init|))
  {
    other := AssignmentIsChoice(order, rival);
    AssignmentLoads(size, init, order, rival, other);
    AssignmentLoads(size, init, order, Lots(order, mine, |init|), mine);
  }

  lemma ContentsOfParcels(ready: seq<Worker>, lots: seq<seq<Request>>)
    requires |lots| == |ready|
    ensures Contents(Parcels(ready, lots)) == lots
  {}

  /** The heaviest final token load of an assignment. */
  function PeakTokens(ready: seq<Worker>, lots: seq<seq<Request>>): real
    requires ready != [] && |lots| == |ready|
  {
    Peak(Final(TokenLoad(ready), Tokens, lots))
  }

  /** Least-queued-tokens is a (2 - 1/m)-approximation: over the m ready workers
      its heaviest final token load is at most that factor above the heaviest
      load of every other assignment of the same group. */
  lemma LeastQueuedBound(items: seq<Request>, ready: seq<Worker>, rival: seq<seq<Request>>)
    requires ready != [] && Rival(rival, items, ready)
    ensures WithinListFactor(|ready|, PeakTokens(ready, Contents(LeastQueued(items, ready))), PeakTokens(ready, rival))
  {
    var jobs, mine, other := LeastQueuedLoads(items, ready, rival);
    ListSchedulingBound(TokenLoad(ready), jobs, mine, other);
  }

  ghost predicate EqualPrompts(items: seq<Request>) {
    forall i, j | 0 <= i < j < |items| :: items[i].promptTokens == items[j].promptTokens
  }

  /** For samples of one prompt the order by expected output is the order by
      size, and the factor is 3/2 - 1/(2m). */
  lemma LeastQueuedEqualPromptsBound(items: seq<Request>, ready: seq<Worker>, rival: seq<seq<Request>>)
    requires ready != [] && Rival(rival, items, ready) && EqualPrompts(items)
    ensures WithinLoadedLongestFirstFactor(
              |ready|, PeakTokens(ready, Contents(LeastQueued(items, ready))), PeakTokens(ready, rival))
  {
    var jobs, mine, other := LeastQueuedLoads(items, ready, rival);
    DescendingTokens(items);
    LoadedLongestFirstBound(TokenLoad(ready), jobs, mine, other);
  }

  lemma FloorGrows(x: real, y: real)
    requires x <= y
    ensures x.Floor <= y.Floor
  {}

  lemma DescendingTokens(items: seq<Request>)
    requires EqualPrompts(items)
    ensures Descending(Sizes(Tokens, LongestFirst(items)))
  {
    OrdersAreTotal();
    SortSorts(ByP90Descending, items);
    SortPermutes(ByP90Descending, items);
    var order := LongestFirst(items);
    var jobs := Sizes(Tokens, order);
    forall i, j | 0 <= i < j < |jobs| ensures jobs[i] >= jobs[j] {
      assert ByP90Descending(order[i], order[j]);
      FloorGrows(order[j].p90, order[i].p90);
      SamePrompt(items, order[i], order[j]);
    }
  }

  lemma SamePrompt(items: seq<Request>, a: Request, b: Request)
    requires EqualPrompts(items) && a in multiset(items) && b in multiset(items)
    ensures a.promptTokens == b.promptTokens
  {
    var i :| 0 <= i < |items| && items[i] == a;
    var j :| 0 <= j < |items| && items[j] == b;
  }

  /** The greedy choices of least-queued-tokens, and a rival's. */
  lemma LeastQueuedLoads(items: seq<Request>, ready: seq<Worker>, rival: seq<seq<Request>>)
    returns (jobs: seq<real>, mine: seq<nat>, other: seq<nat>)
    requires ready != [] && Rival(rival, items, ready)
    ensures jobs == Sizes(Tokens, LongestFirst(items))
    ensures var init := TokenLoad(ready);
      && NoneNegative(jobs) && Greedy(init, jobs, mine) && |other| == |jobs| && Within(other, |init|)
      && Load(init, jobs, mine) == Final(init, Tokens, Contents(LeastQueued(items, ready)))
      && Load(init, jobs, other) == Final(init, Tokens, rival)
  {
    var m, init, order := |ready|, TokenLoad(ready), LongestFirst(items);
    jobs := Sizes(Tokens, order);
    mine := Choose(init, SameCost(jobs, m), |order|);
    SortPermutes(ByP90Descending, items);
    ChooseIsGreedy(init, SameCost(jobs, m), jobs);
    other := RivalChoice(Tokens, init, items, order, mine, rival);
    ContentsOfParcels(ready, Lots(order, mine, m));
  }

  /** Each worker that received work ends within one request of every other. */
  lemma LeastQueuedBalanced(items: seq<Request>, ready: seq<Worker>, w: nat, v: nat)
    requires w < |ready| && v < |ready| && LeastQueued(items, ready)[w].requests != []
    ensures exists q | q in LeastQueued(items, ready)[w].requests ::
      var final := Final(TokenLoad(ready), Tokens, Contents(LeastQueued(items, ready)));
      final[w] <= final[v] + Tokens(q)
  {
    var m, init, order := |ready|, TokenLoad(ready), LongestFirst(items);
    var jobs := Sizes(Tokens, order);
    ChooseIsGreedy(init, SameCost(jobs, m), jobs);
    var mine := Choose(init, SameCost(jobs, m), |order|);
    var lots := Contents(LeastQueued(items, ready));
    AssignmentLoads(Tokens, init, order, lots, mine);
    PickedChosen(order, mine, w);
    var k := LastJob(mine, w);
    GreedyIsBalanced(init, jobs, mine, k, v);
    PickedHas(order, mine, w, k);
  }

  lemma {:induction false} PickedChosen(order: seq<Request>, choice: seq<nat>, w: nat)
    requires |choice| <= |order| && Picked(order, choice, w) != []
    ensures w in choice
  {
    if choice[|choice| - 1] != w {
      PickedChosen(order, choice[..|choice| - 1], w);
    }
  }

  lemma {:induction false} PickedHas(order: seq<Request>, choice: seq<nat>, w: nat, k: nat)
    requires k < |choice| <= |order| && choice[k] == w
    ensures order[k] in Picked(order, choice, w)
  {
    if k < |choice| - 1 {
      PickedHas(order, choice[..|choice| - 1], w, k);
    }
  }

  /** Least-requests is optimal: no assignment of the group has a smaller
      largest request count, whatever was running and queued before. */
  lemma LeastRequestsOptimal(items: seq<Request>, ready: seq<Worker>, rival: seq<seq<Request>>)
    requires ready != [] && Rival(rival, items, ready)
    ensures var init := Reals(RequestLoad(ready));
      Peak(Final(init, One, Contents(LeastRequests(items, ready)))) <= Peak(Final(init, One, rival))
  {
    var m, init := |ready|, Reals(RequestLoad(ready));
    var jobs := Sizes(One, items);
    var other := AssignmentIsChoice(items, rival);
    AssignmentLoads(One, init, items, rival, other);
    ChooseIsGreedy(init, SameCost(jobs, m), jobs);
    var mine := Choose(init, SameCost(jobs, m), |items|);
    AssignmentLoads(One, init, items, Contents(LeastRequests(items, ready)), mine);
    UnitJobsOptimal(RequestLoad(ready), jobs, mine, other);
  }

  /** When the last worker would finish. */
  function Makespan(ready: seq<Worker>, rate: Rate, lots: seq<seq<Request>>): real
    requires ready != [] && |lots| == |ready|
  {
    Peak(Final(QueueTimes(ready), DecodeSeconds(rate), lots))
  }

  ghost predicate EqualRates(ready: seq<Worker>, rate: Rate) {
    forall w | 0 <= w < |ready| :: ready[w].decodeRate == rate
  }

  ghost predicate IdleAndEqual(ready: seq<Worker>, rate: Rate) {
    EqualRates(ready, rate) && forall w | 0 <= w < |ready| :: ready[w].queuedPrefill == 0 && ready[w].activeDecode == 0
  }

  /** Load-proportional placement is longest-first list scheduling: on workers
      with empty queues and one decode rate its makespan is at most
      4/3 - 1/(3m) times that of every other assignment. */
  lemma LoadProportionalBound(items: seq<Request>, ready: seq<Worker>, rate: Rate, rival: seq<seq<Request>>)
    requires ready != [] && Rival(rival, items, ready) && IdleAndEqual(ready, rate)
    ensures WithinLongestFirstFactor(
              |ready|, Makespan(ready, rate, Contents(LoadProportional(items, ready))), Makespan(ready, rate, rival))
  {
    var jobs, mine, other := LoadProportionalLoads(items, ready, rate, rival);
    IdleTimes(ready, rate);
    LongestFirstBound(QueueTimes(ready), jobs, mine, other);
  }

  /** With anything in the queues it is longest-first list scheduling on loaded
      workers: at most 3/2 - 1/(2m) times. */
  lemma LoadProportionalQueuedBound(items: seq<Request>, ready: seq<Worker>, rate: Rate, rival: seq<seq<Request>>)
    requires ready != [] && Rival(rival, items, ready) && EqualRates(ready, rate)
    ensures WithinLoadedLongestFirstFactor(
              |ready|, Makespan(ready, rate, Contents(LoadProportional(items, ready))), Makespan(ready, rate, rival))
  {
    var jobs, mine, other := LoadProportionalLoads(items, ready, rate, rival);
    LoadedLongestFirstBound(QueueTimes(ready), jobs, mine, other);
  }

  lemma LoadProportionalLoads(items: seq<Request>, ready: seq<Worker>, rate: Rate, rival: seq<seq<Request>>)
    returns (jobs: seq<real>, mine: seq<nat>, other: seq<nat>)
    requires ready != [] && Rival(rival, items, ready) && EqualRates(ready, rate)
    ensures var init := QueueTimes(ready);
      && NoneNegative(init) && Descending(jobs) && NoneNegative(jobs)
      && Greedy(init, jobs, mine) && |other| == |jobs| && Within(other, |init|)
      && Load(init, jobs, mine) == Final(init, DecodeSeconds(rate), Contents(LoadProportional(items, ready)))
      && Load(init, jobs, other) == Final(init, DecodeSeconds(rate), rival)
  {
    var m, init, order := |ready|, QueueTimes(ready), LongestFirst(items);
    var size := DecodeSeconds(rate);
    var cost := DecodeCost(Sizes(P90, order), DecodeRates(ready));
    jobs := Sizes(size, order);
    mine := Choose(init, cost, |order|);
    SortPermutes(ByP90Descending, items);
    DescendingJobs(items, rate);
    EqualCost(order, ready, rate);
    ChooseIsGreedy(init, cost, jobs);
    other := RivalChoice(size, init, items, order, mine, rival);
    ContentsOfParcels(ready, Lots(order, mine, m));
  }

  lemma IdleTimes(ready: seq<Worker>, rate: Rate)
    requires IdleAndEqual(ready, rate)
    ensures Idle(QueueTimes(ready))
  {}

  lemma EqualCost(order: seq<Request>, ready: seq<Worker>, rate: Rate)
    requires EqualRates(ready, rate)
    ensures Uniform(DecodeCost(Sizes(P90, order), DecodeRates(ready)), Sizes(DecodeSeconds(rate), order), |ready|)
  {}

  lemma QuotientGrows(x: real, y: real, rate: Rate)
    requires x <= y
    ensures x / rate <= y / rate
  {}

  lemma DescendingJobs(items: seq<Request>, rate: Rate)
    ensures var jobs := Sizes(DecodeSeconds(rate), LongestFirst(items));
      Descending(jobs) && NoneNegative(jobs)
  {
    OrdersAreTotal();
    SortSorts(ByP90Descending, items);
    var order := LongestFirst(items);
    var jobs := Sizes(DecodeSeconds(rate), order);
    forall i, j | 0 <= i < j < |jobs| ensures jobs[i] >= jobs[j] {
      assert ByP90Descending(order[i], order[j]);
      QuotientGrows(order[j].p90, order[i].p90, rate);
    }
  }
}
