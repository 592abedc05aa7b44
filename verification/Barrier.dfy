/** What the group barrier guarantees over every run: responses are write-once,
    a ready group is whole and of one version, and it becomes ready once. */
module Barrier {
  import opened Outcomes
  import opened Ordering
  import opened Models
  import opened Groups
  import opened Tracker

  function Indices(n: nat): (r: set<int>)
    ensures forall i :: i in r <==> 0 <= i < n
  {
    if n == 0 then {} else Indices(n - 1) + {n - 1}
  }

  /** The group holds what its key, size and version say, and nothing else. */
  ghost predicate Sound(g: Group, id: string) {
    && g.id == id && g.size > 0 && g.deadline != 0
    && g.completed == g.responses.Keys
    && g.completed <= Indices(g.size) && g.failed <= Indices(g.size)
    && (forall i | i in g.responses :: Belongs(g.responses[i], g, i))
    && (forall i, j | i in g.responses && j in g.responses :: SameRevisions(g.responses[i], g.responses[j]))
    && (g.status == ReadyGroup ==> g.completed == Indices(g.size))
  }

  predicate Belongs(r: Response, g: Group, i: int) {
    r.groupId == g.id && r.sampleIndex == i && r.requestedVersion == g.version && r.servedVersion == g.version
  }

  ghost predicate AllSound(groups: map<string, Group>) {
    forall id | id in groups :: Sound(groups[id], id)
  }

  lemma {:induction false} IndicesCount(n: nat)
    ensures |Indices(n)| == n
  {
    if n > 0 {
      IndicesCount(n - 1);
    }
  }

  lemma {:induction false} SubsetCount<T>(a: set<T>, b: set<T>)
    requires a <= b
    ensures |a| <= |b| && (|a| == |b| ==> a == b)
    decreases |a|
  {
    if a != {} {
      var x :| x in a;
      SubsetCount(a - {x}, b - {x});
      assert a == (a - {x}) + {x} && b == (b - {x}) + {x};
    }
  }

  /** Counting the completed samples is as good as looking at them. */
  lemma FullMeansAll(completed: set<int>, n: nat)
    requires completed <= Indices(n)
    ensures |completed| == n <==> completed == Indices(n)
  {
    IndicesCount(n);
    SubsetCount(completed, Indices(n));
  }

  /** Taking a response leaves the responses in order. */
  lemma TakenBelongs(g: Group, r: Response)
    requires Sound(g, r.groupId) && Fits(g, r)
    ensures var rs := g.responses[r.sampleIndex := r];
      && (forall i | i in rs :: Belongs(rs[i], g, i))
      && (forall i, j | i in rs && j in rs :: SameRevisions(rs[i], rs[j]))
      && rs.Keys == g.completed + {r.sampleIndex}
  {
    var rs := g.responses[r.sampleIndex := r];
    if g.responses != map[] {
      var k :| k in g.responses && SameRevisions(g.responses[k], r);
      forall i | i in g.responses ensures SameRevisions(g.responses[i], r) {
        assert SameRevisions(g.responses[i], g.responses[k]);
      }
    }
  }

  /** Becoming complete is covering every sample with no other one failed. */
  lemma TakenCompletes(g: Group, r: Response)
    requires Sound(g, r.groupId) && Fits(g, r)
    ensures var i := r.sampleIndex;
      |g.completed + {i}| == g.size && g.failed - {i} == {} <==> g.completed + {i} == Indices(g.size) && g.failed <= {i}
  {
    FullMeansAll(g.completed + {r.sampleIndex}, g.size);
    assert g.failed - {r.sampleIndex} == {} <==> g.failed <= {r.sampleIndex};
  }

  lemma TakenIsSound(g: Group, r: Response)
    requires Sound(g, r.groupId) && Fits(g, r)
    ensures Sound(WithResponse(g, r), r.groupId)
    ensures g.status != ReadyGroup
    ensures WithResponse(g, r).status == ReadyGroup
      <==> g.completed + {r.sampleIndex} == Indices(g.size) && g.failed <= {r.sampleIndex}
  {
    TakenBelongs(g, r);
    TakenCompletes(g, r);
    assert r.sampleIndex !in g.completed && r.sampleIndex in Indices(g.size);
  }

  /** What an op does to a group that exists. */
  function Touched(g: Group, op: Op, id: string): Group {
    match op
    case Register(_, _, _, _) => g
    case Assign(groupId, shares) => if groupId == id then g.(assignees := SortBy(LexLeq, Busy(shares))) else g
    case Respond(r) => if r.groupId == id && Fits(g, r) then WithResponse(g, r) else g
    case Fail(groupId, index, reason, terminal) =>
      if groupId == id && g.HasIndex(index) then WithFailure(g, index, reason, terminal) else g
    case Expire(now, drop) => if g.status == OpenGroup && now >= g.deadline then Lapse(g, drop) else g
  }

  /** A group as registration makes it. */
  ghost predicate Fresh(g: Group, id: string) {
    && g.id == id && g.size > 0 && g.deadline != 0 && g.status == OpenGroup
    && g.completed == {} && g.failed == {} && g.responses == map[] && g.reasons == map[]
  }

  lemma RegisteredAt(s: TrackerState, items: seq<Request>, now: nat, window: int, signature: string, id: string)
    ensures var groups := Registered(s, items, now, window, signature).state.groups;
      if id in s.groups then id in groups && groups[id] == s.groups[id]
      else id in groups ==> Fresh(groups[id], id)
  {
    if EnsureHomogeneous(items).Success? { SortPermutes(BySample, items); }
  }

  /** Ops touch existing groups as said, and only registration adds one. */
  lemma StepAt(s: TrackerState, op: Op, id: string)
    ensures var groups := Step(s, op).state.groups;
      if id in s.groups then id in groups && groups[id] == Touched(s.groups[id], op, id)
      else id in groups ==> op.Register? && Fresh(groups[id], id)
  {
    match op
    case Register(items, now, window, signature) => RegisteredAt(s, items, now, window, signature, id);
    case Expire(now, _) =>
      if id in s.groups {
        assert id in Overdue(s.groups, now) <==> s.groups[id].status == OpenGroup && now >= s.groups[id].deadline;
      }
    case Assign(_, _) =>
    case Respond(_) =>
    case Fail(_, _, _, _) =>
  }

  lemma TouchedIsSound(g: Group, op: Op, id: string)
    requires Sound(g, id)
    ensures Sound(Touched(g, op, id), id)
  {
    if op.Respond? && op.response.groupId == id && Fits(g, op.response) {
      TakenIsSound(g, op.response);
    }
  }

  /** Every report keeps every group sound. */
  lemma StepKeepsSound(s: TrackerState, op: Op)
    requires AllSound(s.groups)
    ensures AllSound(Step(s, op).state.groups)
  {
    var groups := Step(s, op).state.groups;
    forall id | id in groups ensures Sound(groups[id], id) {
      StepAt(s, op, id);
      if id in s.groups { TouchedIsSound(s.groups[id], op, id); }
    }
  }

  lemma {:induction false} RunKeepsSound(s: TrackerState, ops: seq<Op>)
    requires AllSound(s.groups)
    ensures AllSound(Run(s, ops).groups)
  {
    if ops != [] {
      RunKeepsSound(s, ops[..|ops| - 1]);
      StepKeepsSound(Run(s, ops[..|ops| - 1]), ops[|ops| - 1]);
    }
  }

  /** Identity stays, and what was recorded stays as it was recorded. */
  ghost predicate Extends(g: Group, g': Group) {
    && g'.id == g.id && g'.size == g.size && g'.version == g.version
    && g'.created == g.created && g'.deadline == g.deadline
    && forall i | i in g.responses :: i in g'.responses && g'.responses[i] == g.responses[i]
  }

  ghost predicate AllExtend(groups: map<string, Group>, groups': map<string, Group>) {
    forall id | id in groups :: id in groups' && Extends(groups[id], groups'[id])
  }

  lemma TouchedExtends(g: Group, op: Op, id: string)
    ensures Extends(g, Touched(g, op, id))
  {}

  lemma StepExtends(s: TrackerState, op: Op)
    ensures AllExtend(s.groups, Step(s, op).state.groups)
  {
    forall id | id in s.groups
      ensures id in Step(s, op).state.groups && Extends(s.groups[id], Step(s, op).state.groups[id])
    {
      StepAt(s, op, id);
      TouchedExtends(s.groups[id], op, id);
    }
  }

  /** Responses are write-once over any run. */
  lemma {:induction false} ResponsesAreWriteOnce(s: TrackerState, ops: seq<Op>)
    ensures AllExtend(s.groups, Run(s, ops).groups)
  {
    if ops != [] {
      var front := ops[..|ops| - 1];
      ResponsesAreWriteOnce(s, front);
      StepExtends(Run(s, front), ops[|ops| - 1]);
    }
  }

  predicate IsReady(s: TrackerState, id: string) {
    id in s.groups && s.groups[id].status == ReadyGroup
  }

  predicate IsFull(s: TrackerState, id: string) {
    id in s.groups && s.groups[id].completed == Indices(s.groups[id].size)
  }

  predicate Opens(s: TrackerState, op: Op, id: string) {
    !IsReady(s, id) && IsReady(Step(s, op).state, id)
  }

  /** A group opens with its last missing response, and only if no other sample
      is marked as failed then. */
  lemma OpensExactlyWith(s: TrackerState, op: Op, id: string)
    requires AllSound(s.groups)
    ensures Opens(s, op, id) <==>
              && !IsReady(s, id) && id in s.groups
              && op.Respond? && op.response.groupId == id && Fits(s.groups[id], op.response)
              && s.groups[id].completed + {op.response.sampleIndex} == Indices(s.groups[id].size)
              && s.groups[id].failed <= {op.response.sampleIndex}
    ensures Opens(s, op, id) ==> !IsFull(s, id) && IsFull(Step(s, op).state, id)
  {
    StepAt(s, op, id);
    if id in s.groups && op.Respond? && op.response.groupId == id && Fits(s.groups[id], op.response) {
      TakenIsSound(s.groups[id], op.response);
    }
  }

  /** How often a group entered READY. */
  function Openings(s: TrackerState, ops: seq<Op>, id: string): nat {
    if ops == [] then 0
    else
      var front := ops[..|ops| - 1];
      Openings(s, front, id) + if Opens(Run(s, front), ops[|ops| - 1], id) then 1 else 0
  }

  lemma FullStaysFull(s: TrackerState, op: Op, id: string)
    requires AllSound(s.groups) && IsFull(s, id)
    ensures IsFull(Step(s, op).state, id)
  {
    StepExtends(s, op);
    StepKeepsSound(s, op);
    var g, g' := s.groups[id], Step(s, op).state.groups[id];
    assert g.responses.Keys <= g'.responses.Keys;
  }

  /** Each group becomes ready at most once, and a full group never again. */
  lemma {:induction false} OpensAtMostOnce(s: TrackerState, ops: seq<Op>, id: string)
    requires AllSound(s.groups)
    ensures Openings(s, ops, id) <= 1
    ensures IsFull(s, id) ==> Openings(s, ops, id) == 0 && IsFull(Run(s, ops), id)
    ensures Openings(s, ops, id) == 1 ==> IsFull(Run(s, ops), id)
  {
    if ops != [] {
      var front, last := ops[..|ops| - 1], ops[|ops| - 1];
      OpensAtMostOnce(s, front, id);
      RunKeepsSound(s, front);
      OpensExactlyWith(Run(s, front), last, id);
      if IsFull(Run(s, front), id) { FullStaysFull(Run(s, front), last, id); }
    }
  }

  /** A group that filled up while a sample was marked as failed is never ready
      afterwards, whatever is reported. */
  lemma {:induction false} BlockedForGood(s: TrackerState, ops: seq<Op>, id: string)
    requires AllSound(s.groups) && IsFull(s, id) && !IsReady(s, id)
    ensures !IsReady(Run(s, ops), id)
  {
    if ops != [] {
      var front := ops[..|ops| - 1];
      BlockedForGood(s, front, id);
      OpensAtMostOnce(s, ops, id);
      assert !Opens(Run(s, front), ops[|ops| - 1], id);
    }
  }

  /** The samples of a group for which responses were sent in. */
  function Fed(ops: seq<Op>, id: string): set<int> {
    if ops == [] then {}
    else
      var last := ops[|ops| - 1];
      Fed(ops[..|ops| - 1], id)
      + if last.Respond? && last.response.groupId == id then {last.response.sampleIndex} else {}
  }

  /** One response for each sample, all of the group's version and of one
      tokenizer and template. */
  ghost predicate Family(fixed: map<int, Response>, g: Group) {
    && fixed.Keys == Indices(g.size)
    && (forall i | i in fixed :: Belongs(fixed[i], g, i))
    && (forall i, j | i in fixed && j in fixed :: SameRevisions(fixed[i], fixed[j]))
  }

  /** The reports about this group are responses of the family, in any order
      and as often as may be, and no failures. */
  ghost predicate Feeds(ops: seq<Op>, id: string, fixed: map<int, Response>) {
    forall k | 0 <= k < |ops| ::
      && (ops[k].Respond? && ops[k].response.groupId == id ==>
            ops[k].response.sampleIndex in fixed && ops[k].response == fixed[ops[k].response.sampleIndex])
      && !(ops[k].Fail? && ops[k].groupId == id)
  }

  ghost predicate FedWith(g: Group, fed: set<int>, fixed: map<int, Response>) {
    && g.completed == fed && g.failed == {} && fed <= fixed.Keys
    && (forall i | i in g.responses :: i in fixed && g.responses[i] == fixed[i])
    && (g.status == ReadyGroup <==> fed == fixed.Keys)
  }

  /** With no failures reported the barrier opens exactly when the responses
      cover every sample: whatever else happens, expiry included. */
  lemma OpensExactlyWhenCovered(s: TrackerState, ops: seq<Op>, id: string, fixed: map<int, Response>)
    requires AllSound(s.groups) && id in s.groups
    requires s.groups[id].completed == {} && s.groups[id].failed == {} && s.groups[id].status == OpenGroup
    requires Family(fixed, s.groups[id]) && Feeds(ops, id, fixed)
    ensures id in Run(s, ops).groups && FedWith(Run(s, ops).groups[id], Fed(ops, id), fixed)
    ensures IsReady(Run(s, ops), id) <==> Fed(ops, id) == Indices(s.groups[id].size)
  {
    FedThroughout(s, ops, id, fixed);
  }

  lemma {:induction false} FedThroughout(s: TrackerState, ops: seq<Op>, id: string, fixed: map<int, Response>)
    requires AllSound(s.groups) && id in s.groups
    requires s.groups[id].completed == {} && s.groups[id].failed == {} && s.groups[id].status == OpenGroup
    requires Family(fixed, s.groups[id]) && Feeds(ops, id, fixed)
    ensures id in Run(s, ops).groups && FedWith(Run(s, ops).groups[id], Fed(ops, id), fixed)
  {
    if ops == [] {
      assert 0 in fixed;
    } else {
      var front, last := ops[..|ops| - 1], ops[|ops| - 1];
      FedThroughout(s, front, id, fixed);
      RunKeepsSound(s, front);
      ResponsesAreWriteOnce(s, front);
      FeedStep(Run(s, front), last, id, Fed(front, id), fixed);
    }
  }

  lemma FeedStep(s: TrackerState, op: Op, id: string, fed: set<int>, fixed: map<int, Response>)
    requires AllSound(s.groups) && id in s.groups && Family(fixed, s.groups[id]) && FedWith(s.groups[id], fed, fixed)
    requires Feeds([op], id, fixed)
    ensures id in Step(s, op).state.groups
    ensures var fed' := fed + if op.Respond? && op.response.groupId == id then {op.response.sampleIndex} else {};
      FedWith(Step(s, op).state.groups[id], fed', fixed)
  {
    StepAt(s, op, id);
    assert [op][0] == op;
    if op.Respond? && op.response.groupId == id { FeedResponse(s.groups[id], op.response, fed, fixed); }
  }

  lemma FeedFits(g: Group, r: Response, fed: set<int>, fixed: map<int, Response>)
    requires Sound(g, r.groupId) && Family(fixed, g) && FedWith(g, fed, fixed)
    requires r.sampleIndex in fixed && r == fixed[r.sampleIndex]
    ensures Fits(g, r) <==> r.sampleIndex !in fed
    ensures r.sampleIndex in fed ==> fed + {r.sampleIndex} == fed
  {
    if r.sampleIndex !in fed && g.responses != map[] {
      var j :| j in g.responses;
      assert SameRevisions(g.responses[j], r);
    }
  }

  lemma FeedResponse(g: Group, r: Response, fed: set<int>, fixed: map<int, Response>)
    requires Sound(g, r.groupId) && Family(fixed, g) && FedWith(g, fed, fixed)
    requires r.sampleIndex in fixed && r == fixed[r.sampleIndex]
    ensures FedWith(if Fits(g, r) then WithResponse(g, r) else g, fed + {r.sampleIndex}, fixed)
  {
    FeedFits(g, r, fed, fixed);
    if Fits(g, r) {
      TakenIsSound(g, r);
      TakenFields(g, r);
      assert fixed.Keys == Indices(g.size) && g.failed == {};
      FeedTaken(g, r, WithResponse(g, r), fed, fixed);
    }
  }

  lemma TakenFields(g: Group, r: Response)
    ensures var g' := WithResponse(g, r);
      && g'.completed == g.completed + {r.sampleIndex} && g'.failed == g.failed - {r.sampleIndex}
      && g'.responses == g.responses[r.sampleIndex := r]
  {}

  lemma FeedTaken(g: Group, r: Response, g': Group, fed: set<int>, fixed: map<int, Response>)
    requires FedWith(g, fed, fixed) && r.sampleIndex in fixed && r == fixed[r.sampleIndex]
    requires g'.completed == g.completed + {r.sampleIndex} && g'.failed == g.failed - {r.sampleIndex}
    requires g'.responses == g.responses[r.sampleIndex := r]
    requires g'.status == ReadyGroup <==> g'.completed == fixed.Keys
    ensures FedWith(g', fed + {r.sampleIndex}, fixed)
  {}

  /** One of two samples has arrived and been marked as failed. */
  ghost predicate HalfGroup(g: Group, id: string, fixed: map<int, Response>) {
    && g.id == id && g.size == 2 && 0 in g.failed && g.status != ReadyGroup && Family(fixed, g)
    && g.completed == {0} && g.responses == map[0 := fixed[0]]
  }

  lemma FirstOfTwo(g: Group, id: string, fixed: map<int, Response>)
    requires Fresh(g, id) && g.size == 2 && Family(fixed, g)
    ensures Touched(g, Respond(fixed[0]), id) == WithResponse(g, fixed[0])
    ensures WithResponse(g, fixed[0]).status == OpenGroup
  {
    var r := fixed[0];
    assert Belongs(r, g, 0) && Fits(g, r);
    assert |{0}| == 1;
    assert g.completed + {0} == {0};
  }

  lemma FirstThenFails(g: Group, id: string, fixed: map<int, Response>, reason: string)
    requires Fresh(g, id) && g.size == 2 && Family(fixed, g)
    ensures HalfGroup(Touched(Touched(g, Respond(fixed[0]), id), Fail(id, 0, reason, false), id), id, fixed)
  {
    FirstOfTwo(g, id, fixed);
    assert Belongs(fixed[0], g, 0);
    TakenFields(g, fixed[0]);
    var g' := WithFailure(WithResponse(g, fixed[0]), 0, reason, false);
    FamilyStays(g, g', fixed);
    assert g.completed + {0} == {0} && map[][0 := fixed[0]] == map[0 := fixed[0]];
  }

  lemma FamilyStays(g: Group, g': Group, fixed: map<int, Response>)
    requires Family(fixed, g) && g'.id == g.id && g'.size == g.size && g'.version == g.version
    ensures Family(fixed, g')
  {}

  lemma SecondFits(g: Group, id: string, fixed: map<int, Response>)
    requires HalfGroup(g, id, fixed)
    ensures Fits(g, fixed[1]) && fixed[1].sampleIndex == 1
  {
    assert Belongs(fixed[1], g, 1) && SameRevisions(fixed[0], fixed[1]);
    assert 0 in g.responses && SameRevisions(g.responses[0], fixed[1]);
  }

  /** The second arrives when the first has been marked as failed. */
  lemma SecondOfTwo(g: Group, id: string, fixed: map<int, Response>)
    requires HalfGroup(g, id, fixed) && fixed[1].groupId == id
    ensures var g' := Touched(g, Respond(fixed[1]), id);
      g'.completed == Indices(2) && g'.size == 2 && g'.status != ReadyGroup
  {
    SecondFits(g, id, fixed);
    TakenFields(g, fixed[1]);
    assert 0 in WithResponse(g, fixed[1]).failed;
    assert {0} + {1} == Indices(2);
  }

  ghost predicate HalfFailed(s: TrackerState, id: string, fixed: map<int, Response>) {
    AllSound(s.groups) && id in s.groups && HalfGroup(s.groups[id], id, fixed) && fixed[1].groupId == id
  }

  lemma HalfThenFails(s: TrackerState, id: string, fixed: map<int, Response>, reason: string)
    requires AllSound(s.groups) && id in s.groups && s.groups[id].size == 2 && Fresh(s.groups[id], id)
    requires Family(fixed, s.groups[id])
    ensures HalfFailed(Step(Step(s, Respond(fixed[0])).state, Fail(id, 0, reason, false)).state, id, fixed)
  {
    var first, failure := Respond(fixed[0]), Fail(id, 0, reason, false);
    var s1 := Step(s, first).state;
    StepKeepsSound(s, first);
    StepKeepsSound(s1, failure);
    StepAt(s, first, id);
    StepAt(s1, failure, id);
    FirstThenFails(s.groups[id], id, fixed, reason);
    assert Belongs(fixed[1], s.groups[id], 1);
  }

  /** A failure reported for a sample that had already arrived keeps a complete
      group shut: two samples, the first one failed late. */
  lemma LateFailureShutsTheGroup(s: TrackerState, id: string, fixed: map<int, Response>, reason: string, more: seq<Op>)
    requires AllSound(s.groups) && id in s.groups && s.groups[id].size == 2 && Fresh(s.groups[id], id)
    requires Family(fixed, s.groups[id])
    ensures var end := Run(s, [Respond(fixed[0]), Fail(id, 0, reason, false), Respond(fixed[1])]);
      IsFull(end, id) && !IsReady(end, id) && !IsReady(Run(end, more), id)
  {
    var first, failure, last := Respond(fixed[0]), Fail(id, 0, reason, false), Respond(fixed[1]);
    RunThree(s, first, failure, last);
    HalfThenFails(s, id, fixed, reason);
    var half := Step(Step(s, first).state, failure).state;
    HalfNeverOpens(half, id, fixed, more);
  }

  lemma HalfNeverOpens(s: TrackerState, id: string, fixed: map<int, Response>, more: seq<Op>)
    requires HalfFailed(s, id, fixed)
    ensures var end := Step(s, Respond(fixed[1])).state;
      IsFull(end, id) && !IsReady(end, id) && !IsReady(Run(end, more), id)
  {
    var last := Respond(fixed[1]);
    StepKeepsSound(s, last);
    StepAt(s, last, id);
    SecondOfTwo(s.groups[id], id, fixed);
    BlockedForGood(Step(s, last).state, more, id);
  }

  lemma RunThree(s: TrackerState, a: Op, b: Op, c: Op)
    ensures Run(s, [a, b, c]) == Step(Step(Step(s, a).state, b).state, c).state
  {
    assert [] + [a] == [a] && [a] + [b] == [a, b] && [a, b] + [c] == [a, b, c];
    RunAppend(s, [], a);
    RunAppend(s, [a], b);
    RunAppend(s, [a, b], c);
  }
}
