/** The group barrier: what each report does to the tracker, in memory and on
    disk. */
module Tracker {
  import opened Outcomes
  import opened Ordering
  import opened Decimal
  import opened Models
  import opened Groups

  datatype TrackerState = TrackerState(groups: map<string, Group>, disk: Option<map<string, Stored>>, durable: bool)

  /** What one worker of a placement was given. */
  datatype Share = Share(worker: string, ids: seq<string>)

  datatype Op =
    | Register(items: seq<Request>, now: nat, window: int, signature: string)
    | Assign(groupId: string, shares: seq<Share>)
    | Respond(response: Response)
    | Fail(groupId: string, index: int, reason: string, terminal: bool)
    | Expire(now: nat, drop: bool)

  datatype Answer = GroupIs(group: Group) | Done | Expired(ids: set<string>) | Rejected(error: Error)

  datatype Reply = Reply(state: TrackerState, answer: Answer)

  /** Writing the state out sorts every mapping's keys, which fails if any
      group's failure reasons mix numbers and text; the file then stays as it
      was, and memory as it is. */
  predicate Writable(groups: map<string, Group>) {
    forall id | id in groups :: Sortable(groups[id].reasons)
  }

  function Snapshot(groups: map<string, Group>): map<string, Stored>
    requires Writable(groups)
  {
    map id | id in groups :: ToStored(groups[id])
  }

  function Persist(s: TrackerState, answer: Answer): (r: Reply)
    ensures r.state.groups == s.groups && r.state.durable == s.durable
    ensures r.answer == if s.durable && !Writable(s.groups) then Rejected(TypeError) else answer
  {
    if !s.durable then Reply(s, answer)
    else if !Writable(s.groups) then Reply(s, Rejected(TypeError))
    else Reply(s.(disk := Some(Snapshot(s.groups))), answer)
  }

  function Set(s: TrackerState, g: Group): TrackerState {
    s.(groups := s.groups[g.id := g])
  }

  function NewGroup(first: Request, now: nat, window: int, signature: string): Group {
    Group(first.groupId, first.promptId, first.groupSize, first.policyVersion, first.rolloutStep, [], {}, {}, now,
          Deadline(now, now + window), OpenGroup, signature, map[], map[])
  }

  function Registered(s: TrackerState, items: seq<Request>, now: nat, window: int, signature: string): Reply {
    match EnsureHomogeneous(items)
    case Failure(e) => Reply(s, Rejected(e))
    case Success(sorted) =>
      SortPermutes(BySample, items);
      var first := sorted[0];
      if |sorted| != first.groupSize then Reply(s, Rejected(ValidationError))
      else if first.groupId in s.groups then
        var existing := s.groups[first.groupId];
        if existing.version != first.policyVersion || existing.size != first.groupSize
        then Reply(s, Rejected(ValidationError))
        else Reply(s, GroupIs(existing))
      else
        var g := NewGroup(first, now, window, signature);
        Persist(Set(s, g), GroupIs(g))
  }

  function Busy(shares: seq<Share>): seq<string> {
    if shares == [] then []
    else
      var last := shares[|shares| - 1];
      Busy(shares[..|shares| - 1]) + if last.ids != [] then [last.worker] else []
  }

  function Assigned(s: TrackerState, id: string, shares: seq<Share>): Reply {
    if id !in s.groups then Reply(s, Rejected(KeyError))
    else Persist(s.(groups := s.groups[id := s.groups[id].(assignees := SortBy(LexLeq, Busy(shares)))]), Done)
  }

  /** Whether the group takes this response as a new one. */
  predicate Fits(g: Group, r: Response) {
    && g.HasIndex(r.sampleIndex) && r.requestedVersion == g.version && r.servedVersion == g.version
    && r.sampleIndex !in g.responses
    && (g.responses == map[] || exists i | i in g.responses :: SameRevisions(g.responses[i], r))
  }

  /** Whether it is one the group already has. */
  predicate Repeats(g: Group, r: Response) {
    && g.HasIndex(r.sampleIndex) && r.requestedVersion == g.version && r.servedVersion == g.version
    && r.sampleIndex in g.responses && g.responses[r.sampleIndex].requestId == r.requestId
  }

  function WithResponse(g: Group, r: Response): Group {
    var i := r.sampleIndex;
    var taken := g.(responses := g.responses[i := r], completed := g.completed + {i}, failed := g.failed - {i},
                    reasons := g.reasons - {IndexKey(i)});
    if taken.IsComplete() then taken.(status := ReadyGroup) else taken
  }

  function Responded(s: TrackerState, r: Response): Reply {
    if r.groupId !in s.groups then Reply(s, Rejected(KeyError))
    else
      var g := s.groups[r.groupId];
      if Repeats(g, r) then Reply(s, GroupIs(g))
      else if !Fits(g, r) then Reply(s, Rejected(ValidationError))
      else
        var g' := WithResponse(g, r);
        Persist(s.(groups := s.groups[r.groupId := g']), GroupIs(g'))
  }

  function WithFailure(g: Group, index: int, reason: string, terminal: bool): Group {
    g.(failed := g.failed + {index}, reasons := g.reasons[IndexKey(index) := reason],
       status := if terminal then FailedGroup else g.status)
  }

  function Failing(s: TrackerState, id: string, index: int, reason: string, terminal: bool): Reply {
    if id !in s.groups then Reply(s, Rejected(KeyError))
    else if !s.groups[id].HasIndex(index) then Reply(s, Rejected(ValidationError))
    else Persist(s.(groups := s.groups[id := WithFailure(s.groups[id], index, reason, terminal)]), Done)
  }

  function Overdue(groups: map<string, Group>, now: nat): set<string> {
    set id | id in groups && groups[id].status == OpenGroup && now >= groups[id].deadline
  }

  /** The late groups marked as dropped, or as failed. */
  function Mark(groups: map<string, Group>, late: set<string>, drop: bool): map<string, Group> {
    map id | id in groups :: if id in late then Lapse(groups[id], drop) else groups[id]
  }

  function Lapse(g: Group, drop: bool): Group {
    g.(status := if drop then DroppedGroup else FailedGroup)
  }

  function Expiring(s: TrackerState, now: nat, drop: bool): Reply {
    var late := Overdue(s.groups, now);
    if late == {} then Reply(s, Expired({})) else Persist(s.(groups := Mark(s.groups, late, drop)), Expired(late))
  }

  function Step(s: TrackerState, op: Op): Reply {
    match op
    case Register(items, now, window, signature) => Registered(s, items, now, window, signature)
    case Assign(id, shares) => Assigned(s, id, shares)
    case Respond(r) => Responded(s, r)
    case Fail(id, index, reason, terminal) => Failing(s, id, index, reason, terminal)
    case Expire(now, drop) => Expiring(s, now, drop)
  }

  function Run(s: TrackerState, ops: seq<Op>): TrackerState {
    if ops == [] then s else Step(Run(s, ops[..|ops| - 1]), ops[|ops| - 1]).state
  }

  ghost predicate LegibleDisk(disk: map<string, Stored>) {
    forall id | id in disk :: Legible(Read, disk[id].responses)
  }

  function Restored(disk: map<string, Stored>): map<string, Group>
    requires LegibleDisk(disk)
  {
    map id | id in disk :: FromStored(disk[id])
  }

  /** A new process starts from what is on disk, if anything is. */
  function Restart(disk: Option<map<string, Stored>>): TrackerState
    requires disk.Some? ==> LegibleDisk(disk.value)
  {
    TrackerState(if disk.Some? then Restored(disk.value) else map[], disk, true)
  }

  const EMPTY := TrackerState(map[], None, true)

  lemma RunAppend(s: TrackerState, ops: seq<Op>, op: Op)
    ensures Run(s, ops + [op]) == Step(Run(s, ops), op).state
  {
    assert (ops + [op])[..|ops|] == ops;
  }

  class GroupTracker {
    const durable: bool
    var groups: map<string, Group>
    var disk: Option<map<string, Stored>>

    ghost function State(): TrackerState
      reads this
    {
      TrackerState(groups, disk, durable)
    }

    constructor (durable: bool)
      ensures State() == TrackerState(map[], None, durable)
    {
      this.durable, groups, disk := durable, map[], None;
    }

    constructor Reopen(disk: Option<map<string, Stored>>)
      requires disk.Some? ==> LegibleDisk(disk.value)
      ensures State() == Restart(disk)
    {
      durable, this.disk := true, disk;
      groups := if disk.Some? then Restored(disk.value) else map[];
    }

    method Write() returns (outcome: Outcome)
      modifies this`disk
      ensures var p := Persist(old(State()), Done);
        State() == p.state && outcome == if p.answer == Done then Ok else Raised(TypeError)
    {
      if !durable { return Ok; }
      if exists id | id in groups :: !Sortable(groups[id].reasons) { return Raised(TypeError); }
      disk := Some(Snapshot(groups));
      outcome := Ok;
    }

    method Enroll(items: seq<Request>, now: nat, window: int, signature: string) returns (answer: Answer)
      modifies this
      ensures Reply(State(), answer) == Registered(old(State()), items, now, window, signature)
    {
      var sorted := EnsureHomogeneous(items);
      if sorted.Failure? { return Rejected(sorted.error); }
      SortPermutes(BySample, items);
      var first := sorted.value[0];
      if |sorted.value| != first.groupSize { return Rejected(ValidationError); }
      if first.groupId in groups {
        var existing := groups[first.groupId];
        if existing.version != first.policyVersion || existing.size != first.groupSize {
          return Rejected(ValidationError);
        }
        return GroupIs(existing);
      }
      var group := NewGroup(first, now, window, signature);
      groups := groups[group.id := group];
      var outcome := Write();
      answer := if outcome == Ok then GroupIs(group) else Rejected(TypeError);
    }

    static method BusyWorkers(shares: seq<Share>) returns (busy: seq<string>)
      ensures busy == Busy(shares)
    {
      busy := [];
      TakeTwice(shares, |shares|, |shares|);
      for k := 0 to |shares|
        invariant busy == Busy(shares[..k])
      {
        TakeOneMore(shares, k);
        if shares[k].ids != [] { busy := busy + [shares[k].worker]; }
      }
    }

    method AssignWorkers(groupId: string, shares: seq<Share>) returns (answer: Answer)
      modifies this
      ensures Reply(State(), answer) == Assigned(old(State()), groupId, shares)
    {
      if groupId !in groups { return Rejected(KeyError); }
      var busy := BusyWorkers(shares);
      groups := groups[groupId := groups[groupId].(assignees := SortBy(LexLeq, busy))];
      var outcome := Write();
      answer := if outcome == Ok then Done else Rejected(TypeError);
    }

    method RecordResponse(response: Response) returns (answer: Answer)
      modifies this
      ensures Reply(State(), answer) == Responded(old(State()), response)
    {
      if response.groupId !in groups { return Rejected(KeyError); }
      var group := groups[response.groupId];
      var index := response.sampleIndex;
      if !group.HasIndex(index) { return Rejected(ValidationError); }
      if response.requestedVersion != group.version { return Rejected(ValidationError); }
      if response.servedVersion != group.version { return Rejected(ValidationError); }
      if index in group.responses {
        if group.responses[index].requestId != response.requestId { return Rejected(ValidationError); }
        return GroupIs(group);
      }
      if group.responses != map[] && !exists i | i in group.responses :: SameRevisions(group.responses[i], response) {
        return Rejected(ValidationError);
      }
      group := group.(responses := group.responses[index := response]);
      group := group.(completed := group.completed + {index});
      group := group.(failed := group.failed - {index});
      group := group.(reasons := group.reasons - {IndexKey(index)});
      if group.IsComplete() { group := group.(status := ReadyGroup); }
      groups := groups[response.groupId := group];
      var outcome := Write();
      answer := if outcome == Ok then GroupIs(group) else Rejected(TypeError);
    }

    method RecordFailure(groupId: string, index: int, reason: string, terminal: bool) returns (answer: Answer)
      modifies this
      ensures Reply(State(), answer) == Failing(old(State()), groupId, index, reason, terminal)
    {
      if groupId !in groups { return Rejected(KeyError); }
      var group := groups[groupId];
      if !group.HasIndex(index) { return Rejected(ValidationError); }
      group := group.(failed := group.failed + {index});
      group := group.(reasons := group.reasons[IndexKey(index) := reason]);
      if terminal { group := group.(status := FailedGroup); }
      groups := groups[groupId := group];
      var outcome := Write();
      answer := if outcome == Ok then Done else Rejected(TypeError);
    }

    /** Marks every open group past its deadline, one after the other. */
    method Sweep(now: nat, drop: bool) returns (expired: set<string>)
      modifies this`groups
      ensures expired == Overdue(old(groups), now) && groups == Mark(old(groups), expired, drop)
      ensures expired == {} ==> groups == old(groups)
    {
      expired := {};
      var unseen := groups.Keys;
      NothingMarked(groups, now, drop);
      while unseen != {}
        invariant Swept(old(groups), groups, expired, unseen, now, drop)
        decreases |unseen|
      {
        var id :| id in unseen;
        SweepStep(old(groups), groups, expired, unseen, now, drop, id);
        unseen := unseen - {id};
        if groups[id].status == OpenGroup && now >= groups[id].deadline {
          expired := expired + {id};
          groups := groups[id := Lapse(groups[id], drop)];
        }
      }
      SweepEnds(old(groups), groups, expired, now, drop);
    }

    method ExpireOverdue(now: nat, drop: bool) returns (answer: Answer)
      modifies this
      ensures Reply(State(), answer) == Expiring(old(State()), now, drop)
    {
      var expired := Sweep(now, drop);
      if expired == {} { return Expired({}); }
      var outcome := Write();
      answer := if outcome == Ok then Expired(expired) else Rejected(TypeError);
    }
  }

  /** All but the unseen groups have been looked at and marked if late. */
  ghost predicate Swept(start: map<string, Group>, current: map<string, Group>, expired: set<string>,
                        unseen: set<string>, now: nat, drop: bool)
  {
    unseen <= start.Keys && expired == Overdue(start, now) - unseen && current == Mark(start, expired, drop)
  }

  lemma NothingMarked(start: map<string, Group>, now: nat, drop: bool)
    ensures Mark(start, {}, drop) == start && Overdue(start, now) - start.Keys == {}
  {}

  lemma SweepEnds(start: map<string, Group>, current: map<string, Group>, expired: set<string>, now: nat, drop: bool)
    requires Swept(start, current, expired, {}, now, drop)
    ensures expired == Overdue(start, now) && current == Mark(start, Overdue(start, now), drop)
    ensures expired == {} ==> current == start
  {
    assert Overdue(start, now) - {} == Overdue(start, now);
    NothingMarked(start, now, drop);
  }

  lemma SweepStep(start: map<string, Group>, current: map<string, Group>, expired: set<string>, unseen: set<string>,
                  now: nat, drop: bool, id: string)
    requires Swept(start, current, expired, unseen, now, drop) && id in unseen
    ensures id in current && current[id] == start[id]
    ensures if id in Overdue(start, now)
            then Swept(start, current[id := Lapse(current[id], drop)], expired + {id}, unseen - {id}, now, drop)
            else Swept(start, current, expired, unseen - {id}, now, drop)
  {
    if id in Overdue(start, now) {
      assert Mark(start, expired + {id}, drop) == current[id := Lapse(current[id], drop)];
    }
  }
}
