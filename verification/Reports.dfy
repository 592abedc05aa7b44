/** What each kind of report to the tracker comes to, told from the report and
    the group as it was, and what it leads to over everything that follows. */
module Reports {
  import opened Outcomes
  import opened Ordering
  import opened Models
  import opened Groups
  import opened Tracker
  import opened Barrier
  import opened Restarts

  // Registration and its deadline.

  /** When a group is overdue: when its window is over, or, should that come out
      as zero, five minutes after it was created. */
  function DueAt(now: nat, window: int): int {
    if now + window == 0 then now + 300_000_000_000 else now + window
  }

  /** A complete group of one kind is registered as its requests say, with
      nothing recorded yet. One that is there already is returned as it is if
      version and size agree. Any other is refused. */
  lemma RegistrationAnswers(s: TrackerState, items: seq<Request>, now: nat, window: int, signature: string)
    requires s.durable
    ensures var r := Step(s, Register(items, now, window, signature));
      if !Homogeneous(items) || |items| != items[0].groupSize then r == Reply(s, Rejected(ValidationError))
      else
        var q := items[0];
        if q.groupId in s.groups then
          var g := s.groups[q.groupId];
          r == Reply(s, if g.version == q.policyVersion && g.size == |items| then GroupIs(g)
                        else Rejected(ValidationError))
        else
          var g := Group(q.groupId, q.promptId, |items|, q.policyVersion, q.rolloutStep, [], {}, {}, now,
                         DueAt(now, window), OpenGroup, signature, map[], map[]);
          && r.state.groups == s.groups[q.groupId := g]
          && r.answer == if Writable(r.state.groups) then GroupIs(g) else Rejected(TypeError)
  {
    if Homogeneous(items) { FirstSorted(items); }
  }

  /** Memory and file agree on when the group is overdue. */
  ghost predicate DueIn(s: TrackerState, id: string, due: int) {
    && id in s.groups && s.groups[id].deadline == due != 0
    && s.disk.Some? && id in s.disk.value && s.disk.value[id].deadline == due
  }

  lemma StepKeepsDue(s: TrackerState, op: Op, id: string, due: int)
    requires Whole(s) && DueIn(s, id, due)
    ensures DueIn(Step(s, op).state, id, due)
  {
    StepExtends(s, op);
    WritesOrNothing(s, op);
  }

  lemma RebootKeepsDue(s: TrackerState, id: string, due: int)
    requires Whole(s) && DueIn(s, id, due)
    ensures LegibleDisk(s.disk.value) && DueIn(Restart(s.disk), id, due)
  {
    RebootKeepsWhole(s);
  }

  /** What one event makes of a tracker. */
  ghost predicate Ensues(s: TrackerState, event: Event, s': TrackerState) {
    match event
    case Report(op) => s' == Step(s, op).state
    case Reboot => (s.disk.Some? ==> LegibleDisk(s.disk.value)) && s' == Restart(s.disk)
  }

  ghost function After(s: TrackerState, event: Event): iset<TrackerState> {
    iset s': TrackerState | Ensues(s, event, s')
  }

  ghost function DueStates(id: string, due: int): iset<TrackerState> {
    iset s: TrackerState | DueIn(s, id, due)
  }

  lemma LiveEnds(s: TrackerState, events: seq<Event>)
    requires Whole(s) && events != []
    ensures Live(s, events) in After(Live(s, events[..|events| - 1]), events[|events| - 1])
  {
    var front, last := events[..|events| - 1], events[|events| - 1];
    assert front + [last] == events;
    LiveAppend(s, front, last);
  }

  lemma EventKeepsDue(s: TrackerState, event: Event, s': TrackerState, id: string, due: int)
    requires Whole(s) && s in DueStates(id, due) && s' in After(s, event)
    ensures s' in DueStates(id, due)
  {
    match event
    case Report(op) => StepKeepsDue(s, op, id, due);
    case Reboot => RebootKeepsDue(s, id, due);
  }

  lemma {:induction false} LiveKeepsDue(s: TrackerState, events: seq<Event>, id: string, due: int)
    requires Whole(s) && s in DueStates(id, due)
    ensures Live(s, events) in DueStates(id, due)
  {
    if events != [] {
      LiveKeepsDue(s, events[..|events| - 1], id, due);
      LiveEnds(s, events);
      EventKeepsDue(Live(s, events[..|events| - 1]), events[|events| - 1], Live(s, events), id, due);
    }
  }

  /** What a sweep makes of one group. */
  lemma SweepDecides(s: TrackerState, now: nat, drop: bool, id: string)
    requires id in s.groups
    ensures var r, g := Step(s, Expire(now, drop)), s.groups[id];
      && id in r.state.groups
      && r.state.groups[id]
         == (if g.status == OpenGroup && now >= g.deadline
             then g.(status := if drop then DroppedGroup else FailedGroup) else g)
      && (r.answer.Expired? ==> (id in r.answer.ids <==> g.status == OpenGroup && now >= g.deadline))
  {
    StepAt(s, Expire(now, drop), id);
    assert id in Overdue(s.groups, now) <==> s.groups[id].status == OpenGroup && now >= s.groups[id].deadline;
  }

  /** A group that was registered and written is swept exactly if it is still
      open and the window it was registered with is over, whatever was reported
      since and however often the tracker was restarted: dropped or failed as
      the sweep says, and otherwise left as it is. */
  lemma DeadlineIsKept(s: TrackerState, items: seq<Request>, now: nat, window: int, signature: string,
                       events: seq<Event>, t: nat, drop: bool)
    requires Whole(s)
    requires Homogeneous(items) && |items| == items[0].groupSize && items[0].groupId !in s.groups
    requires Step(s, Register(items, now, window, signature)).answer.GroupIs?
    ensures Whole(Step(s, Register(items, now, window, signature)).state)
    ensures var before := Live(Step(s, Register(items, now, window, signature)).state, events);
      var r, id := Step(before, Expire(t, drop)), items[0].groupId;
      && id in before.groups && id in r.state.groups
      && var swept := before.groups[id].status == OpenGroup && t >= DueAt(now, window);
      && r.state.groups[id] == (if swept then before.groups[id].(status := if drop then DroppedGroup else FailedGroup)
                                else before.groups[id])
      && (r.answer.Expired? ==> (id in r.answer.ids <==> swept))
  {
    var op, id := Register(items, now, window, signature), items[0].groupId;
    StepKeepsWhole(s, op);
    RegisteredIsDue(s, items, now, window, signature);
    LiveKeepsDue(Step(s, op).state, events, id, DueAt(now, window));
    SweepDecides(Live(Step(s, op).state, events), t, drop, id);
  }

  lemma RegisteredIsDue(s: TrackerState, items: seq<Request>, now: nat, window: int, signature: string)
    requires Whole(s)
    requires Homogeneous(items) && |items| == items[0].groupSize && items[0].groupId !in s.groups
    requires Step(s, Register(items, now, window, signature)).answer.GroupIs?
    ensures Step(s, Register(items, now, window, signature)).state in DueStates(items[0].groupId, DueAt(now, window))
  {
    RegistrationAnswers(s, items, now, window, signature);
    WritesOrNothing(s, Register(items, now, window, signature));
  }

  // Responses, failures, assignments.

  /** Why a response is not a new one of the group's. */
  predicate Misfits(g: Group, r: Response) {
    r.sampleIndex < 0 || r.sampleIndex >= g.size || r.requestedVersion != g.version || r.servedVersion != g.version
  }

  predicate Clashes(g: Group, r: Response) {
    exists j | j in g.responses :: g.responses[j].tokenizer != r.tokenizer || g.responses[j].template != r.template
  }

  /** A response is refused if its index, its versions or, compared with the
      responses there are, its tokenizer or template do not fit; a second one for
      a sample is accepted as a repeat exactly if it answers the same request; a
      new one is recorded, and clears the sample's failure. */
  lemma ResponseAnswers(s: TrackerState, r: Response)
    requires AllSound(s.groups) && r.groupId in s.groups
    ensures var g, reply, i := s.groups[r.groupId], Step(s, Respond(r)), r.sampleIndex;
      if Misfits(g, r) then reply == Reply(s, Rejected(ValidationError))
      else if i in g.responses
      then reply == Reply(s, if g.responses[i].requestId == r.requestId then GroupIs(g) else Rejected(ValidationError))
      else if Clashes(g, r) then reply == Reply(s, Rejected(ValidationError))
      else Taken(g, reply, s.groups, r)
  {
    var g := s.groups[r.groupId];
    assert Sound(g, r.groupId);
    RevisionsDiffer(g, r);
    if !Misfits(g, r) && r.sampleIndex !in g.responses && !Clashes(g, r) { TakenIs(s, r); }
  }

  /** The response is in the group now, and nothing else changed but what follows
      from that. */
  ghost predicate Taken(g: Group, reply: Reply, groups: map<string, Group>, r: Response) {
    && r.groupId in reply.state.groups
    && var g', i := reply.state.groups[r.groupId], r.sampleIndex;
    && reply.state.groups == groups[r.groupId := g']
    && g'.responses == g.responses[i := r] && g'.completed == g.completed + {i} && g'.failed == g.failed - {i}
    && (forall k :: k in g'.reasons <==> k in g.reasons && k != IndexKey(i))
    && (reply.answer == GroupIs(g') || reply.answer == Rejected(TypeError))
  }

  lemma TakenIs(s: TrackerState, r: Response)
    requires r.groupId in s.groups && Fits(s.groups[r.groupId], r)
    ensures Taken(s.groups[r.groupId], Step(s, Respond(r)), s.groups, r)
  {}

  /** Responses of a group agree with each other, so a new one agrees with some
      exactly if it agrees with all. */
  lemma RevisionsDiffer(g: Group, r: Response)
    requires Sound(g, g.id)
    ensures (g.responses != map[] && !exists j | j in g.responses :: SameRevisions(g.responses[j], r))
       <==> Clashes(g, r)
  {
    if g.responses != map[] {
      var k :| k in g.responses;
      assert forall j | j in g.responses :: SameRevisions(g.responses[j], g.responses[k]);
    }
  }

  /** A failure report marks the sample and files its reason, and fails the group
      exactly if it is terminal; about no sample of the group it is refused. */
  lemma FailureAnswers(s: TrackerState, id: string, i: int, reason: string, terminal: bool)
    requires id in s.groups
    ensures var g, reply := s.groups[id], Step(s, Op.Fail(id, i, reason, terminal));
      if i < 0 || i >= g.size then reply == Reply(s, Rejected(ValidationError))
      else
        && var reasons, status := g.reasons[IndexKey(i) := reason], if terminal then FailedGroup else g.status;
        && reply.state.groups == s.groups[id := g.(failed := g.failed + {i}, reasons := reasons, status := status)]
        && (reply.answer == Done || reply.answer == Rejected(TypeError))
  {}

  lemma {:induction false} BusyAre(shares: seq<Share>, w: string)
    ensures w in Busy(shares) <==> exists k | 0 <= k < |shares| :: shares[k].worker == w && shares[k].ids != []
  {
    if shares != [] {
      var n := |shares| - 1;
      BusyAre(shares[..n], w);
      assert forall k | 0 <= k < n :: shares[..n][k] == shares[k];
      if shares[n].worker == w && shares[n].ids != [] { assert w in [shares[n].worker]; }
    }
  }

  /** The workers recorded for a group are those given requests, in order. */
  lemma AssignmentAnswers(s: TrackerState, id: string, shares: seq<Share>, w: string)
    requires id in s.groups
    ensures var groups := Step(s, Op.Assign(id, shares)).state.groups;
      && id in groups && groups == s.groups[id := s.groups[id].(assignees := groups[id].assignees)]
      && Sorted(LexLeq, groups[id].assignees)
      && (w in groups[id].assignees <==> exists k | 0 <= k < |shares| :: shares[k].worker == w && shares[k].ids != [])
  {
    LexIsTotal();
    SortSorts(LexLeq, Busy(shares));
    SortPermutes(LexLeq, Busy(shares));
    var sorted := SortBy(LexLeq, Busy(shares));
    assert w in sorted <==> w in multiset(sorted);
    BusyAre(shares, w);
  }

  lemma LexIsTotal()
    ensures TotalPreorder(LexLeq)
  {
    forall a: string, b: string ensures LexLeq(a, b) || LexLeq(b, a) { LexTotal(a, b); }
    forall a: string, b: string, c: string | LexLeq(a, b) && LexLeq(b, c) ensures LexLeq(a, c) {
      LexTransitive(a, b, c);
    }
  }
}
