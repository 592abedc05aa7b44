/** Which groups have become ready, and what their responses amount to. */
module Credits {
  import opened Outcomes
  import opened Models
  import opened Groups
  import opened Tracker
  import opened Barrier
  import opened Restarts

  function ResponseTokens(responses: map<int, Response>, n: nat): int {
    if n == 0 then 0
    else ResponseTokens(responses, n - 1) + if n - 1 in responses then responses[n - 1].generatedTokens else 0
  }

  /** Tokens of the group's responses. */
  function GroupTokens(g: Group): int {
    ResponseTokens(g.responses, g.size)
  }

  lemma {:induction false} TokensElsewhere(responses: map<int, Response>, r: Response, n: nat)
    requires r.sampleIndex !in responses
    ensures ResponseTokens(responses[r.sampleIndex := r], n)
         == ResponseTokens(responses, n) + if 0 <= r.sampleIndex < n then r.generatedTokens else 0
  {
    if n > 0 { TokensElsewhere(responses, r, n - 1); }
  }

  /** A response counts for the tokens it says it generated, once it is taken. */
  lemma TakenCounts(g: Group, r: Response)
    requires Fits(g, r)
    ensures GroupTokens(WithResponse(g, r)) == GroupTokens(g) + r.generatedTokens
    ensures g.responses == map[] ==> GroupTokens(g) == 0
  {
    TokensElsewhere(g.responses, r, g.size);
    if g.responses == map[] { NothingTaken(g.size); }
  }

  lemma {:induction false} NothingTaken(n: nat)
    ensures ResponseTokens(map[], n) == 0
  {
    if n > 0 { NothingTaken(n - 1); }
  }

  function TokensOf(ids: seq<string>, groups: map<string, Group>): int
    requires forall i | 0 <= i < |ids| :: ids[i] in groups
  {
    if ids == [] then 0
    else
      var n := |ids| - 1;
      assert ids[n] in groups;
      TokensOf(ids[..n], groups) + GroupTokens(groups[ids[n]])
  }

  /** Each of these groups is listed once and has all its responses. */
  ghost predicate Full(ids: seq<string>, groups: map<string, Group>) {
    && (forall i | 0 <= i < |ids| :: ids[i] in groups && groups[ids[i]].completed == Indices(groups[ids[i]].size))
    && (forall i, j | 0 <= i < j < |ids| :: ids[i] != ids[j])
  }

  /** The groups that were or became ready, those still so included, are either
      entered or missed. */
  ghost predicate Credited(entered: seq<string>, missed: set<string>, groups: map<string, Group>) {
    && Full(entered, groups)
    && (forall id | id in missed :: id !in entered && id in groups && groups[id].completed == Indices(groups[id].size))
    && (forall id | id in groups && groups[id].status == ReadyGroup :: id in entered || id in missed)
  }

  /** The groups that are ready. */
  function ReadyOnes(groups: map<string, Group>): set<string> {
    set id | id in groups && groups[id].status == ReadyGroup
  }

  /** To begin with none is entered. */
  lemma NoneCredited(groups: map<string, Group>)
    requires AllSound(groups)
    ensures Credited([], ReadyOnes(groups), groups)
  {
    forall id | id in ReadyOnes(groups) ensures groups[id].completed == Indices(groups[id].size) {
      assert Sound(groups[id], id);
    }
  }

  lemma {:induction false} SameResponseTokens(a: map<int, Response>, b: map<int, Response>, n: nat)
    requires forall i | 0 <= i < n :: i in a && i in b && b[i] == a[i]
    ensures ResponseTokens(b, n) == ResponseTokens(a, n)
  {
    if n > 0 { SameResponseTokens(a, b, n - 1); }
  }

  lemma GroupTokensStay(g: Group, g': Group, id: string)
    requires Sound(g, id) && Extends(g, g') && g.completed == Indices(g.size)
    ensures GroupTokens(g') == GroupTokens(g)
  {
    forall i | 0 <= i < g.size ensures i in g.responses && i in g'.responses && g'.responses[i] == g.responses[i] {
      assert i in g.completed;
    }
    SameResponseTokens(g.responses, g'.responses, g.size);
  }

  lemma {:induction false} TokensStay(ids: seq<string>, groups: map<string, Group>, groups': map<string, Group>)
    requires Full(ids, groups) && AllSound(groups) && AllExtend(groups, groups')
    ensures forall i | 0 <= i < |ids| :: ids[i] in groups'
    ensures TokensOf(ids, groups') == TokensOf(ids, groups)
  {
    if ids != [] {
      var n := |ids| - 1;
      TokensStay(ids[..n], groups, groups');
      assert ids[n] in groups;
      GroupTokensStay(groups[ids[n]], groups'[ids[n]], ids[n]);
    }
  }

  lemma FullStays(s: TrackerState, op: Op, ids: seq<string>)
    requires AllSound(s.groups) && Full(ids, s.groups)
    ensures Full(ids, Step(s, op).state.groups)
  {
    forall i | 0 <= i < |ids| ensures IsFull(Step(s, op).state, ids[i]) {
      FullStaysFull(s, op, ids[i]);
    }
  }

  /** The group an op makes ready, if it does. */
  function Opened(s: TrackerState, op: Op): seq<string> {
    if op.Respond? && Opens(s, op, op.response.groupId) then [op.response.groupId] else []
  }

  function Those(news: seq<string>): set<string> {
    set id | id in news
  }

  /** Nothing but a response makes a group ready, and then its own. */
  lemma OpensIsOpened(s: TrackerState, op: Op, id: string)
    requires AllSound(s.groups)
    ensures Opens(s, op, id) <==> id in Opened(s, op)
  {
    OpensExactlyWith(s, op, id);
  }

  /** A ready group is one known before or one this op made ready. */
  lemma ReadyIsKnown(s: TrackerState, op: Op, entered: seq<string>, missed: set<string>, id: string)
    requires AllSound(s.groups) && Credited(entered, missed, s.groups) && IsReady(Step(s, op).state, id)
    ensures id in entered || id in missed || id in Opened(s, op)
  {
    OpensIsOpened(s, op, id);
  }

  lemma FullGrows(ids: seq<string>, id: string, groups: map<string, Group>)
    requires Full(ids, groups) && id !in ids && id in groups && groups[id].completed == Indices(groups[id].size)
    ensures Full(ids + [id], groups)
  {}

  /** What is known after a step, news being what it made ready. */
  ghost predicate Known(
      groups: map<string, Group>, entered: seq<string>, missed: set<string>, news: seq<string>)
  {
    && Full(entered, groups) && |news| <= 1
    && (forall id | id in news :: id !in entered && id in groups && groups[id].completed == Indices(groups[id].size))
    && (forall id | id in missed ::
          id !in entered && id !in news && id in groups && groups[id].completed == Indices(groups[id].size))
    && (forall id | id in groups && groups[id].status == ReadyGroup :: id in entered || id in missed || id in news)
  }

  lemma StepKnown(s: TrackerState, op: Op, entered: seq<string>, missed: set<string>)
    requires AllSound(s.groups) && Credited(entered, missed, s.groups)
    ensures Known(Step(s, op).state.groups, entered, missed, Opened(s, op))
  {
    var groups, news := Step(s, op).state.groups, Opened(s, op);
    FullStays(s, op, entered);
    OpenedIsNew(s, op, entered);
    forall id | id in missed ensures id !in news && IsFull(Step(s, op).state, id) {
      MissedStays(s, op, id);
    }
    forall id | id in groups && groups[id].status == ReadyGroup ensures id in entered || id in missed || id in news {
      ReadyIsKnown(s, op, entered, missed, id);
    }
  }

  lemma EnterNews(groups: map<string, Group>, entered: seq<string>, missed: set<string>, news: seq<string>)
    requires Known(groups, entered, missed, news)
    ensures Credited(entered + news, missed, groups)
  {
    if news == [] {
      assert entered + [] == entered;
    } else {
      assert news == [news[0]];
      FullGrows(entered, news[0], groups);
    }
  }

  lemma MissNews(groups: map<string, Group>, entered: seq<string>, missed: set<string>, news: seq<string>)
    requires Known(groups, entered, missed, news)
    ensures Credited(entered, missed + Those(news), groups)
  {}

  lemma MissOne(groups: map<string, Group>, entered: seq<string>, missed: set<string>, id: string)
    requires Known(groups, entered, missed, [id])
    ensures Credited(entered, missed + {id}, groups)
  {
    MissNews(groups, entered, missed, [id]);
    assert Those([id]) == {id};
  }

  /** Entering each group when it becomes ready, or missing it, accounts for it
      once, and what was entered stays true. */
  lemma StepCredits(s: TrackerState, op: Op, entered: seq<string>, missed: set<string>)
    requires AllSound(s.groups) && Credited(entered, missed, s.groups)
    ensures Credited(entered + Opened(s, op), missed, Step(s, op).state.groups)
    ensures Credited(entered, missed + Those(Opened(s, op)), Step(s, op).state.groups)
    ensures Full(entered, Step(s, op).state.groups)
    ensures TokensOf(entered, Step(s, op).state.groups) == TokensOf(entered, s.groups)
  {
    StepKnown(s, op, entered, missed);
    EnterNews(Step(s, op).state.groups, entered, missed, Opened(s, op));
    MissNews(Step(s, op).state.groups, entered, missed, Opened(s, op));
    StepExtends(s, op);
    TokensStay(entered, s.groups, Step(s, op).state.groups);
  }

  /** A full group stays full and is not made ready. */
  lemma MissedStays(s: TrackerState, op: Op, id: string)
    requires AllSound(s.groups) && IsFull(s, id)
    ensures IsFull(Step(s, op).state, id) && id !in Opened(s, op)
  {
    FullStaysFull(s, op, id);
    OpensExactlyWith(s, op, id);
  }

  lemma OpenedIsNew(s: TrackerState, op: Op, entered: seq<string>)
    requires AllSound(s.groups) && Full(entered, s.groups)
    ensures Opened(s, op) != [] ==>
              Opened(s, op)[0] !in entered && IsFull(Step(s, op).state, Opened(s, op)[0])
  {
    if Opened(s, op) != [] {
      var id := Opened(s, op)[0];
      OpensExactlyWith(s, op, id);
      forall i | 0 <= i < |entered| ensures entered[i] != id {
        assert IsFull(s, entered[i]);
      }
    }
  }

  lemma TokensOneMore(ids: seq<string>, id: string, groups: map<string, Group>)
    requires (forall i | 0 <= i < |ids| :: ids[i] in groups) && id in groups
    ensures TokensOf(ids + [id], groups) == TokensOf(ids, groups) + GroupTokens(groups[id])
    ensures ids + [] == ids
  {
    assert (ids + [id])[..|ids|] == ids;
  }

  /** The groups as the tracker has them; which of them became ready and were
      answered so, which of those at most one version late; which were ready at
      the start or became so in a state that could not be written; and what the
      counters say. */
  datatype Ledger = Ledger(
    groups: map<string, Group>,
    entered: seq<string>,
    missed: set<string>,
    timely: seq<string>,
    completed: nat,
    generatedTokens: int,
    freshTokens: int)

  /** The groups that became ready, and their tokens. */
  ghost predicate CountsEntered(
      groups: map<string, Group>, entered: seq<string>, missed: set<string>, completed: nat, tokens: int)
  {
    Credited(entered, missed, groups) && completed == |entered| && tokens == TokensOf(entered, groups)
  }

  /** Those of them that were in time, and their tokens. */
  ghost predicate CountsTimely(groups: map<string, Group>, entered: seq<string>, timely: seq<string>, tokens: int) {
    Full(timely, groups) && (forall i | 0 <= i < |timely| :: timely[i] in entered) && tokens == TokensOf(timely, groups)
  }

  /** The mappings in which every group is sound. */
  ghost function SoundMaps(): iset<map<string, Group>> {
    iset groups: map<string, Group> | AllSound(groups)
  }

  /** The counters agree with what happened. */
  ghost predicate Agrees(l: Ledger) {
    && l.groups in SoundMaps() && CountsEntered(l.groups, l.entered, l.missed, l.completed, l.generatedTokens)
    && CountsTimely(l.groups, l.entered, l.timely, l.freshTokens)
  }

  predicate Same(a: Ledger, b: Ledger) { a == b }

  /** The ledgers that agree, said so that carrying one around does not unfold
      what it says. */
  ghost function Balanced(): iset<Ledger> {
    iset l: Ledger | Folded(l)
  }

  ghost predicate Folded(l: Ledger) {
    forall l': Ledger | Same(l', l) :: Agrees(l')
  }

  lemma BalancedAgrees(l: Ledger)
    ensures l in Balanced() <==> Agrees(l)
  {
    if l in Balanced() { assert Same(l, l); }
  }

  lemma LedgerIs(l: Ledger)
    requires l.groups in SoundMaps() && CountsEntered(l.groups, l.entered, l.missed, l.completed, l.generatedTokens)
    requires CountsTimely(l.groups, l.entered, l.timely, l.freshTokens)
    ensures l in Balanced()
  {
    BalancedAgrees(l);
  }

  lemma BalancedGroups(l: Ledger)
    requires l in Balanced()
    ensures AllSound(l.groups)
  {
    BalancedAgrees(l);
  }

  /** A tracker just opened, with nothing counted yet. */
  lemma OpeningBalance(groups: map<string, Group>)
    requires AllSound(groups)
    ensures Ledger(groups, [], ReadyOnes(groups), [], 0, 0, 0) in Balanced()
  {
    NoneCredited(groups);
    LedgerIs(Ledger(groups, [], ReadyOnes(groups), [], 0, 0, 0));
  }

  lemma NoneEntered(s: TrackerState, op: Op, entered: seq<string>, missed: set<string>, completed: nat, tokens: int)
    requires AllSound(s.groups) && CountsEntered(s.groups, entered, missed, completed, tokens) && Opened(s, op) == []
    ensures CountsEntered(Step(s, op).state.groups, entered, missed, completed, tokens)
  {
    StepCredits(s, op, entered, missed);
    assert entered + [] == entered;
  }

  lemma OneEntered(s: TrackerState, op: Op, id: string, entered: seq<string>, missed: set<string>,
                   completed: nat, tokens: int)
    requires AllSound(s.groups) && CountsEntered(s.groups, entered, missed, completed, tokens) && Opened(s, op) == [id]
    ensures var groups := Step(s, op).state.groups;
      && id in groups && id !in entered && groups[id].completed == Indices(groups[id].size)
      && CountsEntered(groups, entered + [id], missed, completed + 1, tokens + GroupTokens(groups[id]))
  {
    StepCredits(s, op, entered, missed);
    OpenedIsNew(s, op, entered);
    TokensOneMore(entered, id, Step(s, op).state.groups);
  }

  lemma OneMissed(s: TrackerState, op: Op, id: string, entered: seq<string>, missed: set<string>,
                  completed: nat, tokens: int)
    requires AllSound(s.groups) && CountsEntered(s.groups, entered, missed, completed, tokens) && Opened(s, op) == [id]
    ensures CountsEntered(Step(s, op).state.groups, entered, missed + {id}, completed, tokens)
  {
    StepKnown(s, op, entered, missed);
    MissOne(Step(s, op).state.groups, entered, missed, id);
    StepExtends(s, op);
    TokensStay(entered, s.groups, Step(s, op).state.groups);
  }

  lemma TimelyAfter(s: TrackerState, op: Op, entered: seq<string>, timely: seq<string>, tokens: int)
    requires AllSound(s.groups) && CountsTimely(s.groups, entered, timely, tokens)
    ensures CountsTimely(Step(s, op).state.groups, entered, timely, tokens)
  {
    FullStays(s, op, timely);
    StepExtends(s, op);
    TokensStay(timely, s.groups, Step(s, op).state.groups);
  }

  lemma TimelyGrows(groups: map<string, Group>, entered: seq<string>, timely: seq<string>, fresher: int,
                    id: string, tokens: int)
    requires CountsTimely(groups, entered, timely, fresher)
    requires id !in entered && id in groups && groups[id].completed == Indices(groups[id].size)
    requires tokens == GroupTokens(groups[id])
    ensures CountsTimely(groups, entered + [id], timely + [id], fresher + tokens)
  {
    TokensOneMore(timely, id, groups);
    FullGrows(timely, id, groups);
  }

  lemma TimelyWaits(groups: map<string, Group>, entered: seq<string>, timely: seq<string>, tokens: int, id: string)
    requires CountsTimely(groups, entered, timely, tokens)
    ensures CountsTimely(groups, entered + [id], timely, tokens)
  {}

  /** An op that makes no group ready leaves the ledger balanced. */
  lemma LedgerUntouched(l: Ledger, s: TrackerState, op: Op)
    requires l in Balanced() && s.groups == l.groups && Opened(s, op) == []
    ensures l.(groups := Step(s, op).state.groups) in Balanced()
  {
    BalancedAgrees(l);
    StepKeepsSound(s, op);
    NoneEntered(s, op, l.entered, l.missed, l.completed, l.generatedTokens);
    TimelyAfter(s, op, l.entered, l.timely, l.freshTokens);
    LedgerIs(l.(groups := Step(s, op).state.groups));
  }

  /** The ledger with one more group entered. */
  function Entry(l: Ledger, groups: map<string, Group>, id: string, tokens: int, inTime: bool): Ledger {
    Ledger(groups, l.entered + [id], l.missed, if inTime then l.timely + [id] else l.timely, l.completed + 1,
           l.generatedTokens + tokens, if inTime then l.freshTokens + tokens else l.freshTokens)
  }

  /** The ledger with one more group missed. */
  function Miss(l: Ledger, groups: map<string, Group>, id: string): Ledger {
    l.(groups := groups, missed := l.missed + {id})
  }

  lemma EntryForgets(l: Ledger, groups: map<string, Group>, id: string, tokens: int, inTime: bool)
    ensures Entry(l.(groups := groups), groups, id, tokens, inTime) == Entry(l, groups, id, tokens, inTime)
  {}

  /** An op that makes a group ready is to be credited with its tokens. */
  lemma LedgerEntry(l: Ledger, s: TrackerState, op: Op, id: string, inTime: bool)
    requires l in Balanced() && s.groups == l.groups && Opened(s, op) == [id]
    ensures var groups := Step(s, op).state.groups;
      id in groups && Entry(l, groups, id, GroupTokens(groups[id]), inTime) in Balanced()
  {
    BalancedAgrees(l);
    StepKeepsSound(s, op);
    OneEntered(s, op, id, l.entered, l.missed, l.completed, l.generatedTokens);
    TimelyAfter(s, op, l.entered, l.timely, l.freshTokens);
    var groups := Step(s, op).state.groups;
    var tokens := GroupTokens(groups[id]);
    if inTime { EntryInTime(l, groups, id, tokens); } else { EntryTooLate(l, groups, id, tokens); }
  }

  /** Or else to be noted as missed. */
  lemma LedgerMiss(l: Ledger, s: TrackerState, op: Op, id: string)
    requires l in Balanced() && s.groups == l.groups && Opened(s, op) == [id]
    ensures Miss(l, Step(s, op).state.groups, id) in Balanced()
  {
    BalancedAgrees(l);
    StepKeepsSound(s, op);
    OneMissed(s, op, id, l.entered, l.missed, l.completed, l.generatedTokens);
    TimelyAfter(s, op, l.entered, l.timely, l.freshTokens);
    LedgerIs(Miss(l, Step(s, op).state.groups, id));
  }

  lemma EntryInTime(l: Ledger, groups: map<string, Group>, id: string, tokens: int)
    requires groups in SoundMaps() && id !in l.entered
    requires id in groups && groups[id].completed == Indices(groups[id].size)
    requires tokens == GroupTokens(groups[id])
    requires CountsEntered(groups, l.entered + [id], l.missed, l.completed + 1, l.generatedTokens + tokens)
    requires CountsTimely(groups, l.entered, l.timely, l.freshTokens)
    ensures Entry(l, groups, id, tokens, true) in Balanced()
  {
    TimelyGrows(groups, l.entered, l.timely, l.freshTokens, id, tokens);
    EntryAgrees(l, groups, id, tokens);
  }

  lemma EntryAgrees(l: Ledger, groups: map<string, Group>, id: string, tokens: int)
    requires groups in SoundMaps()
    requires CountsEntered(groups, l.entered + [id], l.missed, l.completed + 1, l.generatedTokens + tokens)
    requires CountsTimely(groups, l.entered + [id], l.timely + [id], l.freshTokens + tokens)
    ensures Entry(l, groups, id, tokens, true) in Balanced()
  {
    LedgerIs(Entry(l, groups, id, tokens, true));
  }

  lemma EntryTooLate(l: Ledger, groups: map<string, Group>, id: string, tokens: int)
    requires groups in SoundMaps() && id !in l.entered && id in groups
    requires CountsEntered(groups, l.entered + [id], l.missed, l.completed + 1, l.generatedTokens + tokens)
    requires CountsTimely(groups, l.entered, l.timely, l.freshTokens)
    ensures Entry(l, groups, id, tokens, false) in Balanced()
  {
    TimelyWaits(groups, l.entered, l.timely, l.freshTokens, id);
    LedgerIs(Entry(l, groups, id, tokens, false));
  }

  // Which openings are missed.

  /** A response that makes its group ready is answered with the group exactly if
      the state with it can be written, and otherwise with a type error. */
  lemma OpeningIsAnsweredIff(s: TrackerState, r: Response)
    requires s.durable && AllSound(s.groups) && Opens(s, Respond(r), r.groupId)
    ensures var reply := Step(s, Respond(r));
      && (reply.answer.GroupIs? <==> Writable(reply.state.groups))
      && (!reply.answer.GroupIs? ==> reply.answer == Rejected(TypeError))
  {
    OpensExactlyWith(s, Respond(r), r.groupId);
    WritesOrNothing(s, Respond(r));
  }

  /** If this response makes its group ready, that is answered with a type error
      exactly while a failure reported during these ops, about a group with
      reasons from a file, awaits its response. */
  ghost predicate MissedExactly(s: TrackerState, after: seq<Op>, r: Response) {
    Opens(Run(s, after), Respond(r), r.groupId) ==>
      (Step(Run(s, after), Respond(r)).answer == Rejected(TypeError) <==>
         !Settled(s, after + [Respond(r)], TextFiled(s.groups)))
  }

  /** After a restart a group becomes ready unanswered exactly while a failure
      reported since, about a group the file held reasons of, awaits its
      response. */
  lemma OpeningIsMissedIff(before: seq<Event>, after: seq<Op>, r: Response)
    ensures var s := Live(EMPTY, before);
      (s.disk.Some? ==> LegibleDisk(s.disk.value)) && MissedExactly(Restart(s.disk), after, r)
  {
    MissedAfterRestart(Live(EMPTY, before), after, r);
  }

  lemma MissedAfterRestart(s: TrackerState, after: seq<Op>, r: Response)
    requires Whole(s)
    ensures (s.disk.Some? ==> LegibleDisk(s.disk.value)) && MissedExactly(Restart(s.disk), after, r)
  {
    RebootKeepsWhole(s);
    MissedAt(Restart(s.disk), after, r);
  }

  lemma MissedAt(s: TrackerState, after: seq<Op>, r: Response)
    requires Whole(s) && Writable(s.groups)
    ensures MissedExactly(s, after, r)
  {
    if Opens(Run(s, after), Respond(r), r.groupId) { MissedWhilePending(s, after, r); }
  }

  lemma MissedWhilePending(s: TrackerState, after: seq<Op>, r: Response)
    requires Whole(s) && Writable(s.groups) && Opens(Run(s, after), Respond(r), r.groupId)
    ensures var answer := Step(Run(s, after), Respond(r)).answer;
      && (answer.GroupIs? <==> Settled(s, after + [Respond(r)], TextFiled(s.groups)))
      && (!answer.GroupIs? ==> answer == Rejected(TypeError))
  {
    WritableIffSettled(s, after + [Respond(r)]);
    RunKeepsWhole(s, after);
    RunAppend(s, after, Respond(r));
    OpeningIsAnsweredIff(Run(s, after), r);
  }

  /** One failure report about a group the snapshot held reasons of, and the next
      other group to become ready does so unanswered. */
  lemma OpeningIsMissed(s: TrackerState, op: Op, r: Response)
    requires Whole(s) && Writable(s.groups) && Troubles(op, s) && r.groupId != op.groupId
    ensures s.disk.Some? ==> LegibleDisk(s.disk.value)
    ensures var t := Step(Restart(s.disk), op).state;
      Opens(t, Respond(r), r.groupId) ==>
        Step(t, Respond(r)).answer == Rejected(TypeError) && IsReady(Step(t, Respond(r)).state, r.groupId)
  {
    RebootKeepsWhole(s);
    TwinsWrite(s, [op, Respond(r)]);
    StepKeepsWhole(Restart(s.disk), op);
    var t := Step(Restart(s.disk), op).state;
    RunTwo(Restart(s.disk), op, Respond(r));
    StillPending(s, op, r);
    if Opens(t, Respond(r), r.groupId) { OpeningIsAnsweredIff(t, r); }
  }

  lemma RunTwo(s: TrackerState, a: Op, b: Op)
    ensures Run(s, [a]) == Step(s, a).state && Run(s, [a, b]) == Step(Step(s, a).state, b).state
  {
    assert [] + [a] == [a] && [a] + [b] == [a, b];
    RunAppend(s, [], a);
    RunAppend(s, [a], b);
  }

  lemma StillPending(s: TrackerState, op: Op, r: Response)
    requires Troubles(op, s) && r.groupId != op.groupId
    ensures !Settled(s, [op, Respond(r)], Tainted(s.groups))
  {
    OnePending(s, op);
    ResponsesAreWriteOnce(s, [op]);
    assert [op, Respond(r)][..1] == [op];
    assert Pending(s, [op, Respond(r)], op.groupId) == Pending(s, [op], op.groupId);
    assert op.index in Pending(s, [op, Respond(r)], op.groupId);
  }

  /** The only response of a group of one makes it ready. */
  lemma OneOpens(s: TrackerState, r: Response)
    requires AllSound(s.groups) && r.groupId in s.groups && Belongs(r, s.groups[r.groupId], 0)
    requires Fresh(s.groups[r.groupId], r.groupId) && s.groups[r.groupId].size == 1
    ensures Opens(s, Respond(r), r.groupId)
  {
    OpensExactlyWith(s, Respond(r), r.groupId);
    assert Fits(s.groups[r.groupId], r);
    assert {} + {0} == Indices(1);
  }

  /** A group of one, whole but for its response. */
  ghost predicate AwaitsOne(g: Group, r: Response) {
    Fresh(g, r.groupId) && g.size == 1 && Belongs(r, g, 0)
  }

  /** A group without reasons comes back from the file as it was. */
  lemma RestartKeepsPlain(s: TrackerState, id: string)
    requires Whole(s) && Writable(s.groups) && id in s.groups && s.groups[id].reasons == map[]
    ensures s.disk.Some? ==> LegibleDisk(s.disk.value)
    ensures id in Restart(s.disk).groups && Restart(s.disk).groups[id] == s.groups[id]
  {
    RestartIsTwin(s);
    SamePlain(s.groups, Restart(s.disk).groups, Refiled(s.groups), id);
  }

  lemma SamePlain(groups: map<string, Group>, groups': map<string, Group>, refiled: set<string>, id: string)
    requires TwinMaps(groups, groups', refiled) && id in groups && id !in refiled
    ensures id in groups' && groups'[id] == groups[id]
  {
    var g, g' := groups[id], groups'[id];
    assert TwinGroups(g, g', false);
    assert g' == g'.Bare().(reasons := g'.reasons) && g == g.Bare().(reasons := g.reasons);
  }

  lemma FailsElsewhere(s: TrackerState, op: Op, id: string)
    requires op.Fail? && op.groupId != id && id in s.groups
    ensures id in Step(s, op).state.groups && Step(s, op).state.groups[id] == s.groups[id]
  {
    StepAt(s, op, id);
  }

  /** With it, and a group whose snapshot held reasons: one more failure of the
      latter, and the former becomes ready unanswered. */
  lemma NextIsMissed(s: TrackerState, op: Op, r: Response)
    requires Whole(s) && Writable(s.groups) && Troubles(op, s) && op.groupId != r.groupId
    requires r.groupId in s.groups && AwaitsOne(s.groups[r.groupId], r)
    ensures s.disk.Some? ==> LegibleDisk(s.disk.value)
    ensures var reply := Step(Step(Restart(s.disk), op).state, Respond(r));
      reply.answer == Rejected(TypeError) && IsReady(reply.state, r.groupId)
  {
    RestartKeepsPlain(s, r.groupId);
    RebootKeepsWhole(s);
    FailsElsewhere(Restart(s.disk), op, r.groupId);
    StepKeepsSound(Restart(s.disk), op);
    OneOpens(Step(Restart(s.disk), op).state, r);
    OpeningIsMissed(s, op, r);
  }

  const OTHER := Response("r", "h", 0, "w", 0, 0, 1, "t", "c")

  /** Two groups of one sample, the first of which is then reported as failed. */
  function TwoGroups(): TrackerState {
    Step(Step(Step(EMPTY, Register([Sample("g")], 0, 1, "")).state, Register([Sample("h")], 0, 1, "")).state,
         Fail("g", 0, "lost", false)).state
  }

  lemma TwoGroupsAreSynced()
    ensures Synced(TwoGroups())
  {
    var a, b, c := Register([Sample("g")], 0, 1, ""), Register([Sample("h")], 0, 1, ""), Fail("g", 0, "lost", false);
    RunIsSynced([a, b, c]);
    RunThree(EMPTY, a, b, c);
  }

  lemma TwoGroupsHold(s: TrackerState, op: Op)
    requires "g" !in s.groups && "h" !in s.groups && op == Fail("g", 0, "lost", false)
    ensures var t := Step(Step(s, Register([Sample("g")], 0, 1, "")).state, Register([Sample("h")], 0, 1, "")).state;
      var groups := Step(t, op).state.groups;
      && "g" in Tainted(groups) && groups["g"].size == 1
      && "h" in groups && AwaitsOne(groups["h"], OTHER)
  {
    SampleRegisters(s, "g");
    var t := Step(s, Register([Sample("g")], 0, 1, "")).state;
    SampleRegisters(t, "h");
    var t' := Step(t, Register([Sample("h")], 0, 1, "")).state;
    FailureTaints(t', "g", 0, "lost");
    FailsElsewhere(t', op, "h");
  }

  /** Two groups of one sample: the first is failed before and after a restart,
      and the second gets its response and is ready, but nobody is told. */
  lemma TwoSamplesAreEnough()
    ensures Whole(EMPTY)
    ensures var history := [
        Report(Register([Sample("g")], 0, 1, "")), Report(Register([Sample("h")], 0, 1, "")),
        Report(Fail("g", 0, "lost", false)), Reboot, Report(Fail("g", 0, "lost", false))];
      var reply := Step(Live(EMPTY, history), Respond(OTHER));
      reply.answer == Rejected(TypeError) && IsReady(reply.state, "h")
  {
    var c := Fail("g", 0, "lost", false);
    TwoGroupsAreSynced();
    TwoGroupsHold(EMPTY, c);
    SyncedIsWhole(TwoGroups());
    NextIsMissed(TwoGroups(), c, OTHER);
    FiveEvents(Report(Register([Sample("g")], 0, 1, "")), Report(Register([Sample("h")], 0, 1, "")),
               Report(c), Reboot, Report(c));
  }

  lemma FiveEvents(a: Event, b: Event, c: Event, d: Event, e: Event)
    requires a.Report? && b.Report? && c.Report? && d.Reboot? && e.Report?
    ensures var s := Step(Step(Step(EMPTY, a.op).state, b.op).state, c.op).state;
      (s.disk.Some? ==> LegibleDisk(s.disk.value)) && Live(EMPTY, [a, b, c, d, e]) == Step(Restart(s.disk), e.op).state
  {
    assert [] + [a] == [a] && [a] + [b] == [a, b] && [a, b] + [c] == [a, b, c];
    assert [a, b, c] + [d] == [a, b, c, d] && [a, b, c, d] + [e] == [a, b, c, d, e];
    LiveAppend(EMPTY, [], a);
    LiveAppend(EMPTY, [a], b);
    LiveAppend(EMPTY, [a, b], c);
    LiveAppend(EMPTY, [a, b, c], d);
    LiveAppend(EMPTY, [a, b, c, d], e);
  }

  // Which files leave nothing uncounted.

  /** The only response of the group registered under this id. */
  function Only(id: string): Response {
    Response("r", id, 0, "w", 0, 0, 1, "t", "c")
  }

  lemma OnlyBelongs(g: Group, id: string)
    requires Fresh(g, id) && g.size == 1 && g.version == 0
    ensures Belongs(Only(id), g, 0) && AwaitsOne(g, Only(id))
  {}

  /** A history after which an opening is missed, if the file held reasons. */
  lemma SomethingIsMissed(s: TrackerState) returns (after: seq<Op>, r: Response)
    requires Whole(s) && Writable(s.groups) && TextFiled(s.groups) != {}
    ensures Opens(Run(s, after), Respond(r), r.groupId) && !Step(Run(s, after), Respond(r)).answer.GroupIs?
  {
    var id := SomeOf(TextFiled(s.groups));
    var other := UnusedId(s.groups.Keys);
    var a, b := Register([Sample(other)], 0, 1, ""), Fail(id, 0, "", false);
    after, r := [a, b], Only(other);
    assert Sound(s.groups[id], id);
    RunTwo(s, a, b);
    OtherAwaits(s, a, b, id, other);
    OneOpens(Run(s, after), r);
    StaysPending(s, a, b, r, id);
    MissedWhilePending(s, after, r);
  }

  lemma OtherAwaits(s: TrackerState, a: Op, b: Op, id: string, other: string)
    requires Whole(s) && id in s.groups && other !in s.groups
    requires a == Register([Sample(other)], 0, 1, "") && b == Fail(id, 0, "", false)
    ensures var t := Step(Step(s, a).state, b).state;
      AllSound(t.groups) && other in t.groups && AwaitsOne(t.groups[other], Only(other))
  {
    SampleRegisters(s, other);
    var s1 := Step(s, a).state;
    StepKeepsSound(s, a);
    StepKeepsSound(s1, b);
    FailsElsewhere(s1, b, other);
    OnlyBelongs(s1.groups[other], other);
  }

  lemma StaysPending(s: TrackerState, a: Op, b: Op, r: Response, id: string)
    requires id in TextFiled(s.groups) && s.groups[id].HasIndex(0)
    requires a.Register? && b.Fail? && b.groupId == id && b.index == 0 && r.groupId != id
    ensures !Settled(s, [a, b] + [Respond(r)], TextFiled(s.groups))
  {
    assert [a, b, Respond(r)][..2] == [a, b] && [a, b][..1] == [a];
    ResponsesAreWriteOnce(s, [a]);
    ResponsesAreWriteOnce(s, [a, b]);
    assert Pending(s, [a, b, Respond(r)], id) == Pending(s, [a, b], id);
    assert 0 in Pending(s, [a, b], id);
    assert [a, b] + [Respond(r)] == [a, b, Respond(r)];
  }

  /** If this response makes its group ready, it is answered with the group. */
  predicate Answered(s: TrackerState, after: seq<Op>, r: Response) {
    Opens(Run(s, after), Respond(r), r.groupId) ==> Step(Run(s, after), Respond(r)).answer.GroupIs?
  }

  lemma AlwaysAnsweredIff(s: TrackerState)
    requires Whole(s) && Writable(s.groups)
    ensures (forall after: seq<Op>, r: Response :: Answered(s, after, r)) <==> TextFiled(s.groups) == {}
  {
    if TextFiled(s.groups) == {} {
      forall after: seq<Op>, r: Response ensures Answered(s, after, r) {
        if Opens(Run(s, after), Respond(r), r.groupId) { MissedWhilePending(s, after, r); }
      }
    } else {
      var after, r := SomethingIsMissed(s);
      assert !Answered(s, after, r);
    }
  }

  /** A process counts every group it makes ready, whatever is reported to it,
      exactly if the file it starts on holds no failure reasons. */
  lemma EverythingIsCountedIff(disk: Option<map<string, Stored>>)
    requires disk.Some? ==> Recorded(disk.value)
    ensures disk.Some? ==> LegibleDisk(disk.value)
    ensures var s := Restart(disk);
      (forall after: seq<Op>, r: Response :: Answered(s, after, r)) <==>
        forall id | id in s.groups :: s.groups[id].reasons == map[]
  {
    StartIsWhole(disk);
    TextOrNone(Restart(disk).groups);
    AlwaysAnsweredIff(Restart(disk));
  }
}
