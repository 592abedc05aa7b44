/** The router's front: routing groups, taking responses, counting both. */
module Runtime {
  import opened Outcomes
  import opened Ordering
  import opened Models
  import opened Groups
  import opened Tracker
  import opened Barrier
  import opened Credits
  import opened Telemetry
  import opened Placement
  import opened Adaptive
  import opened Routing
  import opened Restarts

  function RequestIds(requests: seq<Request>): (ids: seq<string>)
    ensures |ids| == |requests| && forall i | 0 <= i < |ids| :: ids[i] == requests[i].id
  {
    seq(|requests|, i requires 0 <= i < |requests| => requests[i].id)
  }

  function SharesOf(ps: seq<Parcel>): (shares: seq<Share>)
    ensures |shares| == |ps|
    ensures forall i | 0 <= i < |ps| :: shares[i] == Share(ps[i].worker.id, RequestIds(ps[i].requests))
  {
    seq(|ps|, i requires 0 <= i < |ps| => Share(ps[i].worker.id, RequestIds(ps[i].requests)))
  }

  /** The decision counts every request of the group, and none twice. */
  lemma {:induction false} SharesCountRequests(ps: seq<Parcel>)
    ensures ShareTotal(SharesOf(ps)) == |All(Contents(ps))|
  {
    if ps != [] {
      var n := |ps| - 1;
      SharesCountRequests(ps[..n]);
      assert SharesOf(ps)[..n] == SharesOf(ps[..n]);
      assert Contents(ps)[..n] == Contents(ps[..n]);
    }
  }

  lemma PlacementCountsGroup(policy: Policy, turn: nat, items: seq<Request>, workers: seq<Worker>, now: int,
                             timeout: int)
    requires DistinctIds(workers) && Placed(policy, turn, items, workers, now, timeout).Success?
    ensures ShareTotal(SharesOf(Placed(policy, turn, items, workers, now, timeout).value)) == |items|
  {
    var ps := Placed(policy, turn, items, workers, now, timeout).value;
    PlacementServesTheGroup(policy, turn, items, workers, now, timeout);
    SharesCountRequests(ps);
    assert |multiset(items)| == |items|;
  }

  /** Every id the decision lists. */
  function Listed(shares: seq<Share>): seq<string> {
    if shares == [] then [] else Listed(shares[..|shares| - 1]) + shares[|shares| - 1].ids
  }

  function Joined(ps: seq<Parcel>): seq<Request> {
    if ps == [] then [] else Joined(ps[..|ps| - 1]) + ps[|ps| - 1].requests
  }

  lemma {:induction false} ListedIsJoined(ps: seq<Parcel>)
    ensures Listed(SharesOf(ps)) == RequestIds(Joined(ps))
    ensures multiset(Joined(ps)) == All(Contents(ps))
  {
    if ps != [] {
      var n := |ps| - 1;
      ListedIsJoined(ps[..n]);
      assert SharesOf(ps)[..n] == SharesOf(ps[..n]);
      assert Contents(ps)[..n] == Contents(ps[..n]);
    }
  }

  function Bears(id: string): Request -> real {
    (q: Request) => if q.id == id then 1.0 else 0.0
  }

  lemma {:induction false} BearersAreListed(id: string, requests: seq<Request>)
    ensures Occurrences(id, RequestIds(requests)) as real == Work(Bears(id), requests)
  {
    if requests != [] {
      var n := |requests| - 1;
      BearersAreListed(id, requests[..n]);
      assert RequestIds(requests)[..n] == RequestIds(requests[..n]);
    }
  }

  /** The decision lists each id as often as the group's requests bear it. */
  lemma PlacementListsGroup(policy: Policy, turn: nat, items: seq<Request>, workers: seq<Worker>, now: int,
                            timeout: int, id: string)
    requires DistinctIds(workers) && Placed(policy, turn, items, workers, now, timeout).Success?
    ensures Occurrences(id, Listed(SharesOf(Placed(policy, turn, items, workers, now, timeout).value)))
         == Occurrences(id, RequestIds(items))
  {
    var ps := Placed(policy, turn, items, workers, now, timeout).value;
    PlacementServesTheGroup(policy, turn, items, workers, now, timeout);
    ListedIsJoined(ps);
    BearersAreListed(id, Joined(ps));
    BearersAreListed(id, items);
    WorkPermutes(Bears(id), Joined(ps), items);
  }

  function StrategyName(policy: Policy): string {
    match policy
    case RoundRobinPolicy => "round-robin"
    case PackPolicy => "fixed-pack"
    case EvenSplitPolicy => "fixed-even-split"
    case LeastQueuedPolicy => "least-queued-tokens"
    case LeastRequestsPolicy => "least-requests"
    case LoadProportionalPolicy => "load-proportional-split"
    case AdaptivePolicy(_) => "adaptive-group"
  }

  /** Decisions of different policies are counted apart. */
  lemma StrategyNamesDiffer(p: Policy, p': Policy)
    requires StrategyName(p) == StrategyName(p')
    ensures p == p' || (p.AdaptivePolicy? && p'.AdaptivePolicy?)
  {
    assert StrategyName(p)[0] == StrategyName(p')[0] && StrategyName(p)[6] == StrategyName(p')[6];
  }

  /** The request with the lowest sample index. */
  function Earliest(items: seq<Request>): (first: Request)
    requires items != []
    ensures first in items
  {
    SortPermutes(BySample, items);
    var first := SortBy(BySample, items)[0];
    assert first in multiset(items);
    first
  }

  /** Only the adaptive policy reports what its choice prefills twice. */
  function Repeated(policy: Policy, items: seq<Request>, ps: seq<Parcel>): int
    requires items != []
  {
    if policy.AdaptivePolicy? then Duplicated(ps, Earliest(items)) else 0
  }

  /** A group is trained on in time if that is at its own version or the next
      one; no version given, or zero, means its own. */
  predicate OnTime(version: int, consumedAt: Option<int>) {
    consumedAt.None? || consumedAt.value == 0 || consumedAt.value <= version + 1
  }

  class RLRouterRuntime {
    const policy: GroupPolicy
    const tracker: GroupTracker
    const metrics: RLRouterMetrics
    var workers: seq<Worker>

    /** Requests of the groups routed; groups that became ready and were answered
        so, in order; groups that were ready when this process started, or became
        so but could not be written; and of the former those that were at most
        one version late. */
    ghost var requests: nat
    ghost var entered: seq<string>
    ghost var missed: set<string>
    ghost var timely: seq<string>

    /** The counters agree with what happened. */
    ghost predicate Valid()
      reads this, tracker, metrics
    {
      && DistinctIds(workers) && metrics.Valid() && tracker.durable
      && metrics.RequestsCounted() == requests
      && Books() in Balanced()
    }

    ghost function Books(): Ledger
      reads this, tracker, metrics
    {
      Ledger(tracker.groups, entered, missed, timely, metrics.groupsCompleted, metrics.generatedTokens,
             metrics.freshTokens)
    }

    /** Starts on a state directory: an empty one, or one an earlier process
        left. */
    constructor (policy: Policy, timeout: int, workers: seq<Worker>, disk: Option<map<string, Stored>>)
      requires DistinctIds(workers) && (disk.Some? ==> Recorded(disk.value))
      ensures Valid() && fresh(this.policy) && fresh(tracker) && fresh(metrics)
      ensures (disk.Some? ==> LegibleDisk(disk.value)) && tracker.State() == Restart(disk)
      ensures this.workers == workers && requests == 0 && entered == [] && missed == ReadyOnes(tracker.groups)
    {
      StartIsWhole(disk);
      this.policy := new GroupPolicy(policy, timeout);
      tracker := new GroupTracker.Reopen(disk);
      metrics := new RLRouterMetrics();
      this.workers, requests, entered, timely := workers, 0, [], [];
      missed := ReadyOnes(Restart(disk).groups);
      OpeningBalance(Restart(disk).groups);
    }

    /** What workers report about themselves between calls. */
    method Heartbeats(reported: seq<Worker>)
      requires Valid() && DistinctIds(reported)
      modifies this`workers
      ensures Valid() && workers == reported
    {
      workers := reported;
    }

    /** A failure report or an expiry, which reach the tracker directly. */
    method Report(op: Op) returns (answer: Answer)
      requires Valid() && (op.Fail? || op.Expire?)
      modifies tracker
      ensures Valid() && Reply(tracker.State(), answer) == Step(old(tracker.State()), op)
    {
      ReportsOpenNothing(Books(), tracker.State(), op);
      if op.Fail? {
        answer := tracker.RecordFailure(op.groupId, op.index, op.reason, op.terminal);
      } else {
        answer := tracker.ExpireOverdue(op.now, op.drop);
      }
    }

    /** Registers the group, places it, and counts one request per sample on
        the workers chosen. A group that is not placed, or whose placement cannot
        be written, is not counted. */
    method Route(items: seq<Request>, now: nat, window: int, signature: string) returns (r: Result<seq<Parcel>>)
      requires Valid()
      modifies this`requests, tracker, metrics, policy
      ensures Valid() && requests == old(requests) + if r.Success? then |items| else 0
      ensures metrics.groupsRouted == old(metrics.groupsRouted) + if r.Success? then 1 else 0
      ensures var enrolled := Step(old(tracker.State()), Register(items, now, window, signature));
        var placed := Placed(policy.policy, old(policy.turn), items, workers, now, policy.timeout);
        if enrolled.answer.Rejected? then r == Failure(enrolled.answer.error) && tracker.State() == enrolled.state
        else if placed.Failure? then r == placed && tracker.State() == enrolled.state
        else
          && items != []
          && tracker.State() == Step(enrolled.state, Op.Assign(items[0].groupId, SharesOf(placed.value))).state
          && r == if Writable(tracker.groups) then placed else Failure(TypeError)
      ensures r.Success? ==>
                && |items| > 0 && items[0].groupId in tracker.groups
                && tracker.groups[items[0].groupId].size == |items|
                && metrics.strategyCounts == Bumped(old(metrics.strategyCounts), StrategyName(policy.policy), 1)
                && metrics.duplicatedPrefillTokens
                   == old(metrics.duplicatedPrefillTokens) + Repeated(policy.policy, items, r.value)
    {
      var answer := Enroll(items, now, window, signature);
      if answer.Rejected? { return Failure(answer.error); }
      var group := answer.group;
      r := policy.PlaceGroup(items, workers, now);
      if r.Failure? { return; }
      PlacementCountsGroup(policy.policy, old(policy.turn), items, workers, now, policy.timeout);
      var written := Commit(group.id, items, r.value);
      if !written { return Failure(TypeError); }
    }

    /** Records a placement with the tracker and, if it could be written, with
        the counters. */
    method Commit(id: string, items: seq<Request>, ps: seq<Parcel>) returns (written: bool)
      requires Valid() && id in tracker.groups && items != [] && ShareTotal(SharesOf(ps)) == |items|
      modifies this`requests, tracker, metrics
      ensures Valid() && (written <==> Writable(tracker.groups))
      ensures tracker.State() == Step(old(tracker.State()), Op.Assign(id, SharesOf(ps))).state
      ensures requests == old(requests) + if written then |items| else 0
      ensures metrics.groupsRouted == old(metrics.groupsRouted) + if written then 1 else 0
      ensures id in tracker.groups && tracker.groups[id].size == old(tracker.groups[id].size)
      ensures written ==>
                && metrics.strategyCounts == Bumped(old(metrics.strategyCounts), StrategyName(policy.policy), 1)
                && metrics.duplicatedPrefillTokens
                   == old(metrics.duplicatedPrefillTokens) + Repeated(policy.policy, items, ps)
    {
      written := Assign(id, SharesOf(ps));
      if written { CountPlacement(items, ps); }
    }

    method CountPlacement(items: seq<Request>, ps: seq<Parcel>)
      requires Valid() && items != [] && ShareTotal(SharesOf(ps)) == |items|
      modifies this`requests, metrics
      ensures Valid() && requests == old(requests) + |items| && metrics.groupsRouted == old(metrics.groupsRouted) + 1
      ensures metrics.strategyCounts == Bumped(old(metrics.strategyCounts), StrategyName(policy.policy), 1)
      ensures metrics.duplicatedPrefillTokens
           == old(metrics.duplicatedPrefillTokens) + Repeated(policy.policy, items, ps)
    {
      var duplicated := DuplicatedPrefill(items, ps);
      CountRoute(ps, duplicated, |items|);
    }

    /** The adaptive policy reports what its choice prefills twice. */
    method DuplicatedPrefill(items: seq<Request>, ps: seq<Parcel>) returns (tokens: int)
      requires items != []
      ensures tokens == Repeated(policy.policy, items, ps)
      ensures tokens >= 0
    {
      var first := Earliest(items);
      if Used(ps) != [] { DuplicatedBound(ps, first); }
      tokens := if policy.policy.AdaptivePolicy? then Duplicated(ps, first) else 0;
    }

    method CountRoute(ps: seq<Parcel>, duplicated: int, ghost size: nat)
      requires Valid() && ShareTotal(SharesOf(ps)) == size
      modifies this`requests, metrics
      ensures Valid() && requests == old(requests) + size && metrics.groupsRouted == old(metrics.groupsRouted) + 1
      ensures metrics.strategyCounts == Bumped(old(metrics.strategyCounts), StrategyName(policy.policy), 1)
      ensures metrics.duplicatedPrefillTokens == old(metrics.duplicatedPrefillTokens) + duplicated
    {
      metrics.RecordDecision(StrategyName(policy.policy), SharesOf(ps), duplicated);
      requests := requests + size;
      assert Books() == old(Books());
    }

    method Enroll(items: seq<Request>, now: nat, window: int, signature: string) returns (answer: Answer)
      requires Valid()
      modifies tracker
      ensures Valid() && (answer.Rejected? || answer.GroupIs?)
      ensures Reply(tracker.State(), answer) == Step(old(tracker.State()), Register(items, now, window, signature))
      ensures answer.GroupIs? ==>
                && Homogeneous(items) && answer.group.id == items[0].groupId
                && answer.group.id in tracker.groups && tracker.groups[answer.group.id].size == |items|
    {
      ghost var s, op := tracker.State(), Register(items, now, window, signature);
      ReportsOpenNothing(Books(), s, op);
      BalancedGroups(Books());
      EnrolledSize(s, items, now, window, signature);
      answer := tracker.Enroll(items, now, window, signature);
    }

    method Assign(id: string, shares: seq<Share>) returns (written: bool)
      requires Valid() && id in tracker.groups
      modifies tracker
      ensures Valid() && id in tracker.groups && tracker.groups[id].size == old(tracker.groups[id].size)
      ensures tracker.State() == Step(old(tracker.State()), Op.Assign(id, shares)).state
      ensures written <==> Writable(tracker.groups)
    {
      ghost var s, op := tracker.State(), Op.Assign(id, shares);
      ReportsOpenNothing(Books(), s, op);
      StepAt(s, op, id);
      WritesOrNothing(s, op);
      var answer := tracker.AssignWorkers(id, shares);
      written := answer == Done;
    }

    method SumTokens(responses: map<int, Response>, n: nat) returns (tokens: int)
      ensures tokens == ResponseTokens(responses, n)
    {
      tokens := 0;
      for i := 0 to n
        invariant tokens == ResponseTokens(responses, i)
      {
        if i in responses { tokens := tokens + responses[i].generatedTokens; }
      }
    }

    /** Hands a response to the tracker. */
    method Take(response: Response) returns (answer: Answer, before: Status)
      modifies tracker
      ensures Reply(tracker.State(), answer) == Step(old(tracker.State()), Respond(response))
      ensures response.groupId in old(tracker.groups) ==> before == old(tracker.groups)[response.groupId].status
    {
      before := OpenGroup;
      if response.groupId !in tracker.groups { return Rejected(KeyError), before; }
      before := tracker.groups[response.groupId].status;
      answer := tracker.RecordResponse(response);
    }

    /** Takes a response. The group is counted as completed, with its tokens,
        exactly if this response made it ready and the state could be written
        then; if it could not, the group is ready all the same, but the answer
        is a type error and nothing is counted. */
    method Complete(response: Response, consumedAt: Option<int>) returns (r: Result<Group>)
      requires Valid()
      modifies this`entered, this`missed, this`timely, tracker, metrics
      ensures Valid() && tracker.State() == Step(old(tracker.State()), Respond(response)).state
      ensures r == AsResult(Step(old(tracker.State()), Respond(response)).answer)
      ensures var ready := Opened(old(tracker.State()), Respond(response)) != [];
        && (ready ==> if Writable(tracker.groups) then r.Success? else r == Failure(TypeError))
        && entered == (if ready && r.Success? then old(entered) + [response.groupId] else old(entered))
        && missed == (if ready && r.Failure? then old(missed) + {response.groupId} else old(missed))
        && timely == (if ready && r.Success? && OnTime(r.value.version, consumedAt)
                      then old(timely) + [response.groupId] else old(timely))
      ensures r.Failure? ==> Books() == old(Books()).(groups := tracker.groups, missed := missed)
    {
      ghost var s, l := tracker.State(), Books();
      BalancedGroups(l);
      CompletionIsOwed(l, s, response);
      CompletionShows(s, response);
      var answer, before := Take(response);
      if answer.Rejected? {
        Forgo(response.groupId, Opened(s, Respond(response)) != []);
        return Failure(answer.error);
      }
      var group := answer.group;
      if group.status == ReadyGroup && before != group.status {
        Settle(group, consumedAt);
      }
      r := Success(group);
    }

    /** Nothing is counted for a response that was refused, though its group may
        be ready. */
    ghost method Forgo(id: string, ready: bool)
      requires DistinctIds(workers) && metrics.Valid() && tracker.durable && metrics.RequestsCounted() == requests
      requires if ready then Books() in Due(tracker.groups, id) else Books() in Balanced()
      modifies this`missed
      ensures Valid() && missed == if ready then old(missed) + {id} else old(missed)
    {
      if ready {
        DueIsEither(Books(), tracker.groups, id);
        missed := missed + {id};
      }
    }

    /** Crediting the group balances the books again. */
    method Settle(group: Group, consumedAt: Option<int>)
      requires DistinctIds(workers) && metrics.Valid() && tracker.durable && metrics.RequestsCounted() == requests
      requires Books() in Due(tracker.groups, group.id)
      requires group.id in tracker.groups && tracker.groups[group.id] == group
      modifies this`entered, this`timely, metrics
      ensures Valid() && entered == old(entered) + [group.id]
      ensures timely == if OnTime(group.version, consumedAt) then old(timely) + [group.id] else old(timely)
    {
      DueIsEither(Books(), tracker.groups, group.id);
      ghost var inTime := Credit(group, consumedAt);
    }

    /** Counts a group that just became ready. */
    method Credit(group: Group, consumedAt: Option<int>) returns (ghost inTime: bool)
      requires metrics.Valid()
      modifies this`entered, this`timely, metrics
      ensures metrics.Valid() && metrics.RequestsCounted() == old(metrics.RequestsCounted())
      ensures if inTime then Books() == Entry(old(Books()), tracker.groups, group.id, GroupTokens(group), true)
              else Books() == Entry(old(Books()), tracker.groups, group.id, GroupTokens(group), false)
      ensures entered == old(entered) + [group.id] && (inTime <==> OnTime(group.version, consumedAt))
      ensures timely == if inTime then old(timely) + [group.id] else old(timely)
    {
      var tokens := SumTokens(group.responses, group.size);
      var consumed := if consumedAt.Some? && consumedAt.value != 0 then consumedAt.value else group.version;
      var lag := consumed - group.version;
      metrics.RecordGroup("READY", tokens, lag, 1);
      inTime := lag <= 1;
      entered := entered + [group.id];
      timely := if inTime then timely + [group.id] else timely;
    }
  }

  lemma EnrolledSize(s: TrackerState, items: seq<Request>, now: nat, window: int, signature: string)
    ensures var reply := Registered(s, items, now, window, signature);
      && (reply.answer.Rejected? || reply.answer.GroupIs?)
      && (AllSound(s.groups) && reply.answer.GroupIs? ==>
            && Homogeneous(items) && reply.answer.group.id == items[0].groupId
            && reply.answer.group.id in reply.state.groups && reply.state.groups[reply.answer.group.id].size == |items|)
  {
    if Homogeneous(items) {
      SortPermutes(BySample, items);
      var sorted := SortBy(BySample, items);
      assert sorted[0] in multiset(items);
      assert |sorted| == |items|;
    }
  }

  lemma ReportsOpenNothing(l: Ledger, s: TrackerState, op: Op)
    requires l in Balanced() && s.groups == l.groups && !op.Respond? && s.durable
    ensures l.(groups := Step(s, op).state.groups) in Balanced() && Step(s, op).state.durable
  {
    LedgerUntouched(l, s, op);
    StepKeepsDurable(s, op);
  }

  /** A group that became ready is to be entered, in time or not, or noted as
      missed; either way the books balance. */
  ghost function Due(groups: map<string, Group>, id: string): iset<Ledger> {
    iset l: Ledger |
      && id in groups && Miss(l, groups, id) in Balanced()
      && Entry(l, groups, id, GroupTokens(groups[id]), true) in Balanced()
      && Entry(l, groups, id, GroupTokens(groups[id]), false) in Balanced()
  }

  lemma DueIsEither(l: Ledger, groups: map<string, Group>, id: string)
    requires l in Due(groups, id)
    ensures id in groups && Miss(l, groups, id) in Balanced()
    ensures Entry(l, groups, id, GroupTokens(groups[id]), true) in Balanced()
    ensures Entry(l, groups, id, GroupTokens(groups[id]), false) in Balanced()
  {}

  lemma CompletionIsOwed(l: Ledger, s: TrackerState, r: Response)
    requires l in Balanced() && s.groups == l.groups
    ensures var groups, news := Step(s, Respond(r)).state.groups, Opened(s, Respond(r));
      if news == [] then l.(groups := groups) in Balanced() else l.(groups := groups) in Due(groups, r.groupId)
  {
    var op := Respond(r);
    var groups := Step(s, op).state.groups;
    if Opened(s, op) == [] {
      LedgerUntouched(l, s, op);
    } else {
      LedgerEntry(l, s, op, r.groupId, true);
      LedgerEntry(l, s, op, r.groupId, false);
      LedgerMiss(l, s, op, r.groupId);
      EntryForgets(l, groups, r.groupId, GroupTokens(groups[r.groupId]), true);
      EntryForgets(l, groups, r.groupId, GroupTokens(groups[r.groupId]), false);
    }
  }

  function AsResult(answer: Answer): Result<Group>
    requires answer.GroupIs? || answer.Rejected?
  {
    if answer.GroupIs? then Success(answer.group) else Failure(answer.error)
  }

  /** The answer, and the status before, show whether the response made the group
      ready, unless it was refused. */
  lemma CompletionShows(s: TrackerState, r: Response)
    requires s.durable && AllSound(s.groups)
    ensures var reply, news := Step(s, Respond(r)), Opened(s, Respond(r));
      && (reply.answer.Rejected? || reply.answer.GroupIs?)
      && (news != [] ==> r.groupId in s.groups)
      && (news != [] ==> (reply.answer.GroupIs? <==> Writable(reply.state.groups)))
      && (news != [] && reply.answer.Rejected? ==> reply.answer == Rejected(TypeError))
      && (reply.answer.GroupIs? ==> r.groupId in s.groups && AnswerIsGroup(reply, r))
      && (reply.answer.GroupIs? ==>
            (news != [] <==> reply.answer.group.status == ReadyGroup && s.groups[r.groupId].status != ReadyGroup))
  {
    if Opened(s, Respond(r)) != [] {
      OpeningIsAnsweredIff(s, r);
      OpensExactlyWith(s, Respond(r), r.groupId);
    }
    if r.groupId in s.groups { RespondedIs(s, r); }
  }

  predicate AnswerIsGroup(reply: Reply, r: Response)
    requires reply.answer.GroupIs?
  {
    reply.answer.group.id == r.groupId && r.groupId in reply.state.groups
    && reply.state.groups[r.groupId] == reply.answer.group
  }

  lemma RespondedIs(s: TrackerState, r: Response)
    requires AllSound(s.groups) && r.groupId in s.groups
    ensures var reply := Responded(s, r);
      && (reply.answer.Rejected? || reply.answer.GroupIs?)
      && (reply.answer.GroupIs? ==> AnswerIsGroup(reply, r))
  {
    assert Sound(s.groups[r.groupId], r.groupId);
  }
}
