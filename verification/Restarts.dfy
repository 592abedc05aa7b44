/** What restarts do to the tracker: over histories that contain any number of
    them, what the file holds, what a restart brings back, and when it can be
    noticed. */
module Restarts {
  import opened Outcomes
  import opened Ordering
  import opened Decimal
  import opened Models
  import opened Groups
  import opened Tracker
  import opened Barrier

  ghost predicate AllByIndex(groups: map<string, Group>) {
    forall id | id in groups :: ByIndex(groups[id].reasons)
  }

  /** The file, if there is one, holds what memory holds. */
  ghost predicate Current(s: TrackerState) {
    if s.disk.None? then s.groups == map[] else Writable(s.groups) && s.disk.value == Snapshot(s.groups)
  }

  /** A tracker that was never restarted: its reasons are filed by index and
      the file is up to date. */
  ghost predicate Synced(s: TrackerState) {
    s.durable && AllSound(s.groups) && AllByIndex(s.groups) && Current(s)
  }

  lemma TouchedByIndex(g: Group, op: Op, id: string)
    requires ByIndex(g.reasons)
    ensures ByIndex(Touched(g, op, id).reasons)
  {}

  lemma StepKeepsByIndex(s: TrackerState, op: Op)
    requires AllByIndex(s.groups)
    ensures AllByIndex(Step(s, op).state.groups)
  {
    var groups := Step(s, op).state.groups;
    forall id | id in groups ensures ByIndex(groups[id].reasons) {
      StepAt(s, op, id);
      if id in s.groups { TouchedByIndex(s.groups[id], op, id); }
    }
  }

  /** Whether the op is accepted and has something to write. */
  predicate Writes(s: TrackerState, op: Op) {
    match op
    case Register(items, _, _, _) =>
      Homogeneous(items) && |items| == items[0].groupSize && items[0].groupId !in s.groups
    case Assign(id, _) => id in s.groups
    case Respond(r) => r.groupId in s.groups && Fits(s.groups[r.groupId], r)
    case Fail(id, index, _, _) => id in s.groups && s.groups[id].HasIndex(index)
    case Expire(now, _) => Overdue(s.groups, now) != {}
  }

  /** The answer when every change can be written. */
  function Plain(s: TrackerState, op: Op): Answer {
    Step(s.(durable := false), op).answer
  }

  /** An op that is accepted changes memory, whether or not the change can be
      written; it is answered with a type error exactly if it cannot. Any other
      op changes nothing. */
  lemma WritesOrNothing(s: TrackerState, op: Op)
    requires s.durable
    ensures var reply := Step(s, op);
      && reply.state.durable
      && (!Writes(s, op) ==> reply.state == s && reply.answer == Plain(s, op))
      && (Writes(s, op) ==>
            && !Plain(s, op).Rejected?
            && reply.answer == (if Writable(reply.state.groups) then Plain(s, op) else Rejected(TypeError))
            && reply.state.disk == if Writable(reply.state.groups) then Some(Snapshot(reply.state.groups)) else s.disk)
  {
    if op.Register? && Homogeneous(op.items) { FirstSorted(op.items); }
  }

  lemma FirstSorted(items: seq<Request>)
    requires Homogeneous(items)
    ensures var sorted := SortBy(BySample, items);
      && |sorted| == |items| && SameKind(sorted[0], items[0])
  {
    SortPermutes(BySample, items);
    var sorted := SortBy(BySample, items);
    assert sorted[0] in multiset(items);
    assert |multiset(sorted)| == |multiset(items)|;
  }

  lemma StepKeepsSynced(s: TrackerState, op: Op)
    requires Synced(s)
    ensures Synced(Step(s, op).state)
  {
    StepKeepsSound(s, op);
    StepKeepsByIndex(s, op);
    WritesOrNothing(s, op);
  }

  lemma {:induction false} RunIsSynced(ops: seq<Op>)
    ensures Synced(Run(EMPTY, ops))
  {
    if ops != [] {
      RunIsSynced(ops[..|ops| - 1]);
      StepKeepsSynced(Run(EMPTY, ops[..|ops| - 1]), ops[|ops| - 1]);
    }
  }

  // What the file holds.

  /** A file some tracker wrote. */
  ghost predicate Recorded(disk: map<string, Stored>) {
    exists groups :: AllSound(groups) && Writable(groups) && disk == Snapshot(groups)
  }

  lemma RetoldAt(reasons: map<ReasonKey, string>, t: string)
    requires Sortable(reasons) && Apart(KeyText, reasons)
    ensures t in Rekey(KeyText, reasons) <==> TextKey(t) in Retold(reasons)
    ensures t in Rekey(KeyText, reasons) ==> Retold(reasons)[TextKey(t)] == Rekey(KeyText, reasons)[t]
  {
    var written := Rekey(KeyText, reasons);
    if t in written { assert AsText(t).value in Unkey(AsText, written); }
  }

  lemma TextIsWrittenAt(reasons: map<ReasonKey, string>, t: string)
    requires ByText(reasons) && Apart(KeyText, reasons)
    ensures t in Rekey(KeyText, reasons) <==> TextKey(t) in reasons
    ensures t in Rekey(KeyText, reasons) ==> Rekey(KeyText, reasons)[t] == reasons[TextKey(t)]
  {
    if TextKey(t) in reasons { assert KeyText(TextKey(t)) in Rekey(KeyText, reasons); }
  }

  lemma SameMap<V>(a: map<string, V>, b: map<string, V>)
    requires forall t :: (t in a <==> t in b) && (t in b ==> a[t] == b[t])
    ensures a == b
  {}

  lemma WrittenAlikeAt(reasons: map<ReasonKey, string>, t: string)
    requires Sortable(reasons) && Apart(KeyText, reasons)
    requires ByText(Retold(reasons)) && Apart(KeyText, Retold(reasons))
    ensures t in Rekey(KeyText, reasons) <==> t in Rekey(KeyText, Retold(reasons))
    ensures t in Rekey(KeyText, reasons) ==> Rekey(KeyText, Retold(reasons))[t] == Rekey(KeyText, reasons)[t]
  {
    RetoldAt(reasons, t);
    TextIsWrittenAt(Retold(reasons), t);
  }

  lemma RetoldIsApart(reasons: map<ReasonKey, string>)
    requires Sortable(reasons)
    ensures ByText(Retold(reasons)) && Apart(KeyText, Retold(reasons)) && Apart(KeyText, reasons)
  {
    RetoldIsText(reasons);
    SortableIsApart(reasons);
    SortableIsApart(Retold(reasons));
  }

  lemma RetoldIsWrittenAlike(reasons: map<ReasonKey, string>)
    requires Sortable(reasons)
    requires ByText(Retold(reasons)) && Apart(KeyText, Retold(reasons)) && Apart(KeyText, reasons)
    ensures Rekey(KeyText, Retold(reasons)) == Rekey(KeyText, reasons)
  {
    var written, again := Rekey(KeyText, reasons), Rekey(KeyText, Retold(reasons));
    forall t ensures (t in again <==> t in written) && (t in written ==> again[t] == written[t]) {
      WrittenAlikeAt(reasons, t);
    }
    SameMap(again, written);
  }

  lemma RetoldIsStoredAlike(g: Group)
    requires Sortable(g.reasons)
    ensures ByText(Retold(g.reasons)) && ToStored(g.(reasons := Retold(g.reasons))) == ToStored(g)
  {
    RetoldIsApart(g.reasons);
    RetoldIsWrittenAlike(g.reasons);
  }

  lemma BareIsSound(g: Group, g': Group, id: string)
    requires Sound(g, id) && g'.Bare() == g.Bare()
    ensures Sound(g', id)
  {
    assert g'.responses == g.responses && g'.completed == g.completed && g'.failed == g.failed;
  }

  /** What a group is read back as. */
  function Reread(g: Group): Group
    requires Sortable(g.reasons)
  {
    g.(reasons := Retold(g.reasons))
  }

  /** A group read back from its record is sound and is recorded the same. */
  lemma RecordIsFaithful(g: Group, id: string)
    requires Sound(g, id) && Sortable(g.reasons)
    ensures Legible(Read, ToStored(g).responses) && FromStored(ToStored(g)) == Reread(g)
    ensures Sound(Reread(g), id) && ByText(Reread(g).reasons) && ToStored(Reread(g)) == ToStored(g)
  {
    StoreRoundTrips(g);
    RetoldIsStoredAlike(g);
    BareIsSound(g, Reread(g), id);
  }

  function RereadAll(groups: map<string, Group>): map<string, Group>
    requires Writable(groups)
  {
    map id | id in groups :: Reread(groups[id])
  }

  lemma RecordIsLegible(groups: map<string, Group>)
    requires AllSound(groups) && Writable(groups)
    ensures LegibleDisk(Snapshot(groups))
  {
    forall id | id in groups ensures Legible(Read, ToStored(groups[id]).responses) {
      RecordIsFaithful(groups[id], id);
    }
  }

  lemma RecordAt(groups: map<string, Group>, id: string)
    requires AllSound(groups) && Writable(groups) && id in groups && LegibleDisk(Snapshot(groups))
    ensures Restored(Snapshot(groups))[id] == Reread(groups[id])
  {
    RecordIsFaithful(groups[id], id);
  }

  lemma RecordIsReread(groups: map<string, Group>)
    requires AllSound(groups) && Writable(groups) && LegibleDisk(Snapshot(groups))
    ensures Restored(Snapshot(groups)) == RereadAll(groups)
  {
    var groups', again := Restored(Snapshot(groups)), RereadAll(groups);
    forall id ensures (id in groups' <==> id in again) && (id in again ==> groups'[id] == again[id]) {
      if id in groups { RecordAt(groups, id); }
    }
    SameMap(groups', again);
  }

  lemma RereadIsSound(groups: map<string, Group>)
    requires AllSound(groups) && Writable(groups)
    ensures AllSound(RereadAll(groups)) && Writable(RereadAll(groups))
  {
    var groups' := RereadAll(groups);
    forall id | id in groups' ensures Sound(groups'[id], id) && Sortable(groups'[id].reasons) {
      RecordIsFaithful(groups[id], id);
    }
  }

  lemma RereadIsRecordedAlike(groups: map<string, Group>)
    requires AllSound(groups) && Writable(groups) && Writable(RereadAll(groups))
    ensures Snapshot(RereadAll(groups)) == Snapshot(groups)
  {
    var disk, disk' := Snapshot(groups), Snapshot(RereadAll(groups));
    forall id ensures (id in disk' <==> id in disk) && (id in disk ==> disk'[id] == disk[id]) {
      if id in groups { RereadRecordAt(groups, id); }
    }
    SameMap(disk', disk);
  }

  lemma RereadRecordAt(groups: map<string, Group>, id: string)
    requires AllSound(groups) && Writable(groups) && Writable(RereadAll(groups)) && id in groups
    ensures Snapshot(RereadAll(groups))[id] == Snapshot(groups)[id]
  {
    assert Sound(groups[id], id);
    RetoldIsStoredAlike(groups[id]);
    assert RereadAll(groups)[id] == Reread(groups[id]);
  }

  /** A recorded file can be read, and is what its own contents would write. */
  lemma RecordedComesBack(disk: map<string, Stored>)
    requires Recorded(disk)
    ensures LegibleDisk(disk) && AllSound(Restored(disk)) && Writable(Restored(disk))
              && Snapshot(Restored(disk)) == disk
  {
    var groups :| AllSound(groups) && Writable(groups) && disk == Snapshot(groups);
    RecordIsLegible(groups);
    RecordIsReread(groups);
    RereadIsSound(groups);
    RereadIsRecordedAlike(groups);
  }

  // Histories with restarts in them.

  datatype Event = Report(op: Op) | Reboot

  /** What holds of a tracker at any time: its groups are sound, the file is one
      a tracker wrote, and it is up to date if what is in memory can be written. */
  ghost predicate Whole(s: TrackerState) {
    && s.durable && AllSound(s.groups)
    && (s.disk.Some? ==> Recorded(s.disk.value))
    && (Writable(s.groups) ==> Current(s))
  }

  lemma StepKeepsWhole(s: TrackerState, op: Op)
    requires Whole(s)
    ensures Whole(Step(s, op).state)
  {
    StepKeepsSound(s, op);
    WritesOrNothing(s, op);
  }

  lemma RebootKeepsWhole(s: TrackerState)
    requires Whole(s)
    ensures s.disk.Some? ==> LegibleDisk(s.disk.value)
    ensures Whole(Restart(s.disk)) && Writable(Restart(s.disk).groups)
  {
    if s.disk.Some? { RecordedComesBack(s.disk.value); }
  }

  /** The tracker after a history. Whatever it was, the tracker is whole. */
  ghost function Live(s: TrackerState, events: seq<Event>): (r: TrackerState)
    requires Whole(s)
    ensures Whole(r)
  {
    if events == [] then s
    else
      var before, last := Live(s, events[..|events| - 1]), events[|events| - 1];
      match last
      case Report(op) => StepKeepsWhole(before, op); Step(before, op).state
      case Reboot => RebootKeepsWhole(before); Restart(before.disk)
  }

  lemma LiveAppend(s: TrackerState, events: seq<Event>, event: Event)
    requires Whole(s)
    ensures var before, after := Live(s, events), Live(s, events + [event]);
      match event
      case Report(op) => after == Step(before, op).state
      case Reboot => (before.disk.Some? ==> LegibleDisk(before.disk.value)) && after == Restart(before.disk)
  {
    assert (events + [event])[..|events|] == events;
    RebootKeepsWhole(Live(s, events));
  }

  /** However often a tracker was restarted before, it comes back from its file
      with every group sound. The file is stale exactly while some group's
      failure reasons mix numbers and text. */
  lemma RestartIsSound(events: seq<Event>)
    ensures Whole(EMPTY)
    ensures var s := Live(EMPTY, events);
      && AllSound(s.groups) && (Current(s) <==> Writable(s.groups))
      && (s.disk.Some? ==> LegibleDisk(s.disk.value)) && AllSound(Restart(s.disk).groups)
  {
    RebootKeepsWhole(Live(EMPTY, events));
  }

  /** None of the states these ops lead to can be written. */
  ghost predicate Unwritten(s: TrackerState, ops: seq<Op>) {
    ops == [] || (Unwritten(s, ops[..|ops| - 1]) && !Writable(Run(s, ops).groups))
  }

  /** What was reported since the last write that succeeded is forgotten: a
      restart then brings back what one at that time would have. */
  lemma {:induction false} RefusedWritesAreForgotten(s: TrackerState, ops: seq<Op>)
    requires Whole(s) && Unwritten(s, ops)
    ensures s.disk.Some? ==> LegibleDisk(s.disk.value)
    ensures Run(s, ops).disk == s.disk && Restart(Run(s, ops).disk) == Restart(s.disk)
  {
    RebootKeepsWhole(s);
    if ops != [] {
      var front := ops[..|ops| - 1];
      RefusedWritesAreForgotten(s, front);
      RunKeepsWhole(s, front);
      WritesOrNothing(Run(s, front), ops[|ops| - 1]);
    }
  }

  lemma {:induction false} RunKeepsWhole(s: TrackerState, ops: seq<Op>)
    requires Whole(s)
    ensures Whole(Run(s, ops))
  {
    if ops != [] {
      RunKeepsWhole(s, ops[..|ops| - 1]);
      StepKeepsWhole(Run(s, ops[..|ops| - 1]), ops[|ops| - 1]);
    }
  }

  // Which failure reports make the state unwritable.

  /** The groups with failure reasons. */
  function Tainted(groups: map<string, Group>): set<string> {
    set id | id in groups && groups[id].reasons != map[]
  }

  /** Those whose reasons already went through a file. */
  function TextFiled(groups: map<string, Group>): set<string> {
    set id | id in groups && exists k | k in groups[id].reasons :: k.TextKey?
  }

  function PendingAfter(g: Group, pending: set<int>, op: Op, id: string): set<int> {
    match op
    case Fail(groupId, index, _, _) => if groupId == id && g.HasIndex(index) then pending + {index} else pending
    case Respond(r) => if r.groupId == id && Fits(g, r) then pending - {r.sampleIndex} else pending
    case _ => pending
  }

  /** The samples of the group that were reported as failed during these ops and
      for which no response was taken afterwards. */
  function Pending(s: TrackerState, ops: seq<Op>, id: string): set<int> {
    if ops == [] then {}
    else
      var front, last := ops[..|ops| - 1], ops[|ops| - 1];
      var groups := Run(s, front).groups;
      if id in groups then PendingAfter(groups[id], Pending(s, front, id), last, id) else {}
  }

  /** How g's reasons are filed, given how g0's were: text stays, and if all was
      text, numbers are those pending. */
  ghost predicate Filed(g0: Group, g: Group, pending: set<int>) {
    && (forall t: string :: TextKey(t) in g.reasons <==> TextKey(t) in g0.reasons)
    && (ByText(g0.reasons) ==> forall i: int :: IndexKey(i) in g.reasons <==> i in pending)
  }

  lemma TouchedIsFiled(g0: Group, g: Group, pending: set<int>, op: Op, id: string)
    requires Filed(g0, g, pending)
    ensures Filed(g0, Touched(g, op, id), PendingAfter(g, pending, op, id))
  {}

  lemma {:induction false} RunIsFiled(s: TrackerState, ops: seq<Op>, id: string)
    requires id in s.groups
    ensures id in Run(s, ops).groups && Filed(s.groups[id], Run(s, ops).groups[id], Pending(s, ops, id))
  {
    if ops != [] {
      var front, last := ops[..|ops| - 1], ops[|ops| - 1];
      RunIsFiled(s, front, id);
      StepAt(Run(s, front), last, id);
      TouchedIsFiled(s.groups[id], Run(s, front).groups[id], Pending(s, front, id), last, id);
    }
  }

  lemma {:induction false} NewIsFiledByIndex(s: TrackerState, ops: seq<Op>, id: string)
    requires id !in s.groups && id in Run(s, ops).groups
    ensures ByIndex(Run(s, ops).groups[id].reasons)
  {
    if ops != [] {
      var front, last := ops[..|ops| - 1], ops[|ops| - 1];
      StepAt(Run(s, front), last, id);
      if id in Run(s, front).groups {
        NewIsFiledByIndex(s, front, id);
        TouchedByIndex(Run(s, front).groups[id], last, id);
      }
    }
  }

  lemma SomeOf<T>(xs: set<T>) returns (x: T)
    requires xs != {}
    ensures x in xs
  {
    x :| x in xs;
  }

  lemma TextStays(g0: Group, g: Group, pending: set<int>)
    requires Filed(g0, g, pending) && Sortable(g0.reasons) && exists k | k in g0.reasons :: k.TextKey?
    ensures Sortable(g.reasons) <==> pending == {}
  {
    var k :| k in g0.reasons && k.TextKey?;
    assert ByText(g0.reasons) && TextKey(k.text) in g.reasons;
    forall k' | k' in g.reasons && k'.IndexKey? ensures k'.index in pending {
      assert IndexKey(k'.index) in g.reasons;
    }
    if pending != {} {
      var i := SomeOf(pending);
      assert IndexKey(i) in g.reasons;
    }
  }

  lemma SortableIffSettled(g0: Group, g: Group, pending: set<int>)
    requires Filed(g0, g, pending) && Sortable(g0.reasons)
    ensures Sortable(g.reasons) <==> (exists k | k in g0.reasons :: k.TextKey?) ==> pending == {}
  {
    forall k | k in g.reasons && k.TextKey? ensures k in g0.reasons {
      assert TextKey(k.text) in g.reasons;
    }
    if exists k | k in g0.reasons :: k.TextKey? {
      TextStays(g0, g, pending);
    }
  }

  ghost predicate Settled(s: TrackerState, ops: seq<Op>, ids: set<string>) {
    forall id | id in ids :: Pending(s, ops, id) == {}
  }

  /** The state can be written exactly if every failure reported for a group
      with text-filed reasons has been followed by a response. */
  lemma WritableIffSettled(s: TrackerState, ops: seq<Op>)
    requires Writable(s.groups)
    ensures Writable(Run(s, ops).groups) <==> Settled(s, ops, TextFiled(s.groups))
  {
    var groups := Run(s, ops).groups;
    forall id | id in groups
      ensures Sortable(groups[id].reasons) <==> id in TextFiled(s.groups) ==> Pending(s, ops, id) == {}
    {
      if id in s.groups {
        RunIsFiled(s, ops, id);
        SortableIffSettled(s.groups[id], groups[id], Pending(s, ops, id));
      } else {
        NewIsFiledByIndex(s, ops, id);
      }
    }
    if Writable(groups) {
      forall id | id in TextFiled(s.groups) ensures Pending(s, ops, id) == {} {
        RunIsFiled(s, ops, id);
      }
    }
  }

  // A tracker beside its restarted twin.

  /** The two trackers differ at most in how they file the reasons of groups
      that went through the file between them. */
  ghost predicate Twins(s: TrackerState, s': TrackerState, refiled: set<string>) {
    s.durable && s'.durable && TwinMaps(s.groups, s'.groups, refiled)
  }

  ghost predicate TwinMaps(groups: map<string, Group>, groups': map<string, Group>, refiled: set<string>) {
    && groups.Keys == groups'.Keys && refiled <= groups.Keys
    && forall id | id in groups :: TwinGroups(groups[id], groups'[id], id in refiled)
  }

  /** Of a refiled group only what was reported since is under the same keys. */
  ghost predicate TwinGroups(g: Group, g': Group, refiled: bool) {
    && g'.Bare() == g.Bare()
    && if refiled
       then forall i: int | IndexKey(i) in g'.reasons ::
              IndexKey(i) in g.reasons && g.reasons[IndexKey(i)] == g'.reasons[IndexKey(i)]
       else g'.reasons == g.reasons
  }

  /** The groups whose reasons a restart refiles. */
  function Refiled(groups: map<string, Group>): set<string> {
    Tainted(groups) - TextFiled(groups)
  }

  lemma RereadIsTwin(g: Group)
    requires Sortable(g.reasons)
    ensures TwinGroups(g, Reread(g), g.reasons != map[] && !ByText(g.reasons))
    ensures ByText(Reread(g).reasons) && (Reread(g).reasons == map[] <==> g.reasons == map[])
  {
    RetoldIsText(g.reasons);
  }

  /** With the file up to date, the restarted tracker is a twin, and all the
      reasons it has are text. */
  lemma RestartIsTwin(s: TrackerState)
    requires Whole(s) && Writable(s.groups)
    ensures s.disk.Some? ==> LegibleDisk(s.disk.value)
    ensures Twins(s, Restart(s.disk), Refiled(s.groups))
    ensures TextFiled(Restart(s.disk).groups) == Tainted(s.groups)
  {
    RecordIsLegible(s.groups);
    RecordIsReread(s.groups);
    RereadAreTwins(s.groups);
    RereadIsAllText(s.groups);
    assert Restart(s.disk).groups == RereadAll(s.groups);
  }

  lemma RereadAreTwins(groups: map<string, Group>)
    requires Writable(groups)
    ensures TwinMaps(groups, RereadAll(groups), Refiled(groups))
  {
    var groups' := RereadAll(groups);
    forall id | id in groups ensures TwinGroups(groups[id], groups'[id], id in Refiled(groups)) {
      RereadIsTwin(groups[id]);
      SomeText(groups[id].reasons);
    }
  }

  lemma RereadIsAllText(groups: map<string, Group>)
    requires Writable(groups)
    ensures TextFiled(RereadAll(groups)) == Tainted(groups)
  {
    var groups' := RereadAll(groups);
    forall id | id in groups ensures id in TextFiled(groups') <==> id in Tainted(groups) {
      RereadIsTwin(groups[id]);
      SomeText(groups'[id].reasons);
    }
  }

  lemma SomeText(reasons: map<ReasonKey, string>)
    requires Sortable(reasons)
    ensures (exists k | k in reasons :: k.TextKey?) <==> reasons != map[] && ByText(reasons)
  {
    if reasons != map[] && ByText(reasons) {
      var k :| k in reasons;
      assert k.TextKey?;
    }
  }

  lemma TwinTouched(g: Group, g': Group, refiled: bool, op: Op, id: string)
    requires TwinGroups(g, g', refiled)
    ensures TwinGroups(Touched(g, op, id), Touched(g', op, id), refiled)
  {
    TwinFits(g, g', refiled, op);
  }

  lemma TwinFits(g: Group, g': Group, refiled: bool, op: Op)
    requires TwinGroups(g, g', refiled)
    ensures g'.responses == g.responses && g'.size == g.size && g'.version == g.version
    ensures op.Respond? ==> (Fits(g, op.response) <==> Fits(g', op.response))
  {
    assert g'.Bare().responses == g.Bare().responses && g'.Bare().size == g.Bare().size;
    assert g'.Bare().version == g.Bare().version;
  }

  lemma TwinPends(g: Group, g': Group, refiled: bool, pending: set<int>, op: Op, id: string)
    requires TwinGroups(g, g', refiled)
    ensures PendingAfter(g', pending, op, id) == PendingAfter(g, pending, op, id)
  {
    TwinFits(g, g', refiled, op);
  }

  /** Registration does not look at failure reasons. */
  lemma RegistersAlike(s: TrackerState, s': TrackerState, refiled: set<string>, op: Op, id: string)
    requires op.Register? && Twins(s, s', refiled) && id !in s.groups
    ensures var t, t' := Step(s, op).state.groups, Step(s', op).state.groups;
      (id in t <==> id in t') && (id in t ==> t[id] == t'[id])
  {
    if EnsureHomogeneous(op.items).Success? {
      SortPermutes(BySample, op.items);
      var known := EnsureHomogeneous(op.items).value[0].groupId;
      if known in s.groups { assert TwinGroups(s.groups[known], s'.groups[known], known in refiled); }
    }
  }

  lemma StaysAlikeAt(s: TrackerState, s': TrackerState, refiled: set<string>, op: Op, id: string)
    requires Twins(s, s', refiled)
    ensures var t, t' := Step(s, op).state.groups, Step(s', op).state.groups;
      && (id in t <==> id in t') && (id in s.groups ==> id in t)
      && (id in t ==> TwinGroups(t[id], t'[id], id in refiled))
  {
    StepAt(s, op, id);
    StepAt(s', op, id);
    if id in s.groups {
      TwinTouched(s.groups[id], s'.groups[id], id in refiled, op, id);
    } else if op.Register? {
      RegistersAlike(s, s', refiled, op, id);
    }
  }

  lemma StepKeepsDurable(s: TrackerState, op: Op)
    requires s.durable
    ensures Step(s, op).state.durable
  {
    WritesOrNothing(s, op);
  }

  /** Whatever is reported, and whether or not it can be written, twins stay
      twins. */
  lemma TwinsStay(s: TrackerState, s': TrackerState, refiled: set<string>, op: Op)
    requires Twins(s, s', refiled)
    ensures Twins(Step(s, op).state, Step(s', op).state, refiled)
  {
    StepKeepsDurable(s, op);
    StepKeepsDurable(s', op);
    var t, t' := Step(s, op).state.groups, Step(s', op).state.groups;
    forall id
      ensures (id in t <==> id in t') && (id in s.groups ==> id in t)
      ensures id in t ==> TwinGroups(t[id], t'[id], id in refiled)
    {
      StaysAlikeAt(s, s', refiled, op, id);
    }
    TwinMapsPointwise(s.groups, t, t', refiled);
  }

  lemma TwinMapsPointwise(start: map<string, Group>, t: map<string, Group>, t': map<string, Group>,
                          refiled: set<string>)
    requires refiled <= start.Keys && forall id :: (id in t <==> id in t') && (id in start ==> id in t)
    requires forall id | id in t :: TwinGroups(t[id], t'[id], id in refiled)
    ensures TwinMaps(t, t', refiled)
  {}

  lemma {:induction false} RunKeepsTwins(s: TrackerState, s': TrackerState, refiled: set<string>, ops: seq<Op>)
    requires Twins(s, s', refiled)
    ensures Twins(Run(s, ops), Run(s', ops), refiled)
  {
    if ops != [] {
      RunKeepsTwins(s, s', refiled, ops[..|ops| - 1]);
      TwinsStay(Run(s, ops[..|ops| - 1]), Run(s', ops[..|ops| - 1]), refiled, ops[|ops| - 1]);
    }
  }

  lemma {:induction false} TwinsPendAlike(s: TrackerState, s': TrackerState, refiled: set<string>, ops: seq<Op>,
                                          id: string)
    requires Twins(s, s', refiled)
    ensures Pending(s', ops, id) == Pending(s, ops, id)
  {
    if ops != [] {
      var front, last := ops[..|ops| - 1], ops[|ops| - 1];
      TwinsPendAlike(s, s', refiled, front, id);
      RunKeepsTwins(s, s', refiled, front);
      var groups, groups' := Run(s, front).groups, Run(s', front).groups;
      if id in groups { TwinPends(groups[id], groups'[id], id in refiled, Pending(s, front, id), last, id); }
    }
  }

  /** What a caller sees of an answer. */
  function Seen(answer: Answer): Answer {
    if answer.GroupIs? then GroupIs(answer.group.Bare()) else answer
  }

  function Answers(s: TrackerState, ops: seq<Op>): seq<Answer> {
    if ops == [] then []
    else
      var front := ops[..|ops| - 1];
      Answers(s, front) + [Seen(Step(Run(s, front), ops[|ops| - 1]).answer)]
  }

  lemma {:induction false} AnswerAt(s: TrackerState, ops: seq<Op>, k: nat)
    requires k < |ops|
    ensures |Answers(s, ops)| == |ops| && Answers(s, ops)[k] == Seen(Step(Run(s, ops[..k]), ops[k]).answer)
  {
    var front := ops[..|ops| - 1];
    AnswersLength(s, front);
    if k < |front| {
      AnswerAt(s, front, k);
      assert front[..k] == ops[..k];
    }
  }

  lemma {:induction false} AnswersLength(s: TrackerState, ops: seq<Op>)
    ensures |Answers(s, ops)| == |ops|
  {
    if ops != [] { AnswersLength(s, ops[..|ops| - 1]); }
  }

  lemma PlainlyAlike(s: TrackerState, s': TrackerState, refiled: set<string>, op: Op)
    requires Twins(s, s', refiled)
    ensures Seen(Plain(s, op)) == Seen(Plain(s', op)) && (Writes(s, op) <==> Writes(s', op))
  {
    match op
    case Register(items, _, _, _) =>
      if EnsureHomogeneous(items).Success? {
        SortPermutes(BySample, items);
        var known := EnsureHomogeneous(items).value[0].groupId;
        if known in s.groups { assert TwinGroups(s.groups[known], s'.groups[known], known in refiled); }
      }
    case Respond(r) =>
      if r.groupId in s.groups { ResponseAlike(s.groups[r.groupId], s'.groups[r.groupId], r.groupId in refiled, r); }
    case Expire(now, _) => OverdueAlike(s, s', refiled, now);
    case Fail(id, _, _, _) =>
      if id in s.groups { assert TwinGroups(s.groups[id], s'.groups[id], id in refiled); }
    case Assign(_, _) =>
  }

  lemma OverdueAlike(s: TrackerState, s': TrackerState, refiled: set<string>, now: nat)
    requires Twins(s, s', refiled)
    ensures Overdue(s.groups, now) == Overdue(s'.groups, now)
  {
    forall id ensures id in Overdue(s.groups, now) <==> id in Overdue(s'.groups, now) {
      if id in s.groups { assert TwinGroups(s.groups[id], s'.groups[id], id in refiled); }
    }
  }

  lemma ResponseAlike(g: Group, g': Group, refiled: bool, r: Response)
    requires TwinGroups(g, g', refiled)
    ensures (Fits(g, r) <==> Fits(g', r)) && (Repeats(g, r) <==> Repeats(g', r))
    ensures Fits(g, r) ==> WithResponse(g, r).Bare() == WithResponse(g', r).Bare()
  {
    assert g'.responses == g.responses && g'.size == g.size && g'.version == g.version;
  }

  /** Twins answer differently exactly if one can write what the other cannot. */
  lemma TwinsPartOnWrite(s: TrackerState, s': TrackerState, refiled: set<string>, op: Op)
    requires Twins(s, s', refiled)
    ensures var reply, reply' := Step(s, op), Step(s', op);
      Seen(reply.answer) != Seen(reply'.answer) <==>
        Writes(s, op) && (Writable(reply.state.groups) != Writable(reply'.state.groups))
  {
    WritesOrNothing(s, op);
    WritesOrNothing(s', op);
    PlainlyAlike(s, s', refiled, op);
  }

  /** The k-th op is accepted at a time when some failure reported since the
      restart, about a group whose snapshot held reasons, awaits its response,
      and none about a group that had been through a restart before does. */
  ghost predicate Noticed(s: TrackerState, ops: seq<Op>, k: nat)
    requires k < |ops|
  {
    && Writes(Run(s, ops[..k]), ops[k])
    && Settled(s, ops[..k + 1], TextFiled(s.groups))
    && !Settled(s, ops[..k + 1], Tainted(s.groups))
  }

  ghost predicate Notices(s: TrackerState, ops: seq<Op>) {
    exists k: nat :: k < |ops| && Noticed(s, ops, k)
  }

  /** Before and after the restart, which of the two can write. */
  lemma TwinsWrite(s: TrackerState, ops: seq<Op>)
    requires Whole(s) && Writable(s.groups)
    ensures s.disk.Some? ==> LegibleDisk(s.disk.value)
    ensures Writable(Run(s, ops).groups) <==> Settled(s, ops, TextFiled(s.groups))
    ensures Writable(Run(Restart(s.disk), ops).groups) <==> Settled(s, ops, Tainted(s.groups))
    ensures Twins(Run(s, ops), Run(Restart(s.disk), ops), Refiled(s.groups))
  {
    RestartIsTwin(s);
    RebootKeepsWhole(s);
    var s' := Restart(s.disk);
    WritableIffSettled(s, ops);
    WritableIffSettled(s', ops);
    RunKeepsTwins(s, s', Refiled(s.groups), ops);
    forall id | id in Tainted(s.groups) ensures Pending(s', ops, id) == Pending(s, ops, id) {
      TwinsPendAlike(s, s', Refiled(s.groups), ops, id);
    }
  }

  /** After these ops this one is answered differently. */
  predicate Parted(s: TrackerState, s': TrackerState, front: seq<Op>, op: Op) {
    Seen(Step(Run(s, front), op).answer) != Seen(Step(Run(s', front), op).answer)
  }

  predicate ApartAt(s: TrackerState, s': TrackerState, ops: seq<Op>, k: nat)
    requires k < |ops|
  {
    Parted(s, s', ops[..k], ops[k])
  }

  lemma NoticedNext(s: TrackerState, front: seq<Op>, op: Op)
    requires Whole(s) && Writable(s.groups)
    ensures s.disk.Some? ==> LegibleDisk(s.disk.value)
    ensures Parted(s, Restart(s.disk), front, op) <==>
              && Writes(Run(s, front), op)
              && Settled(s, front + [op], TextFiled(s.groups)) && !Settled(s, front + [op], Tainted(s.groups))
  {
    TwinsWrite(s, front);
    TwinsWrite(s, front + [op]);
    var s' := Restart(s.disk);
    TwinsPartOnWrite(Run(s, front), Run(s', front), Refiled(s.groups), op);
    RunAppend(s, front, op);
    RunAppend(s', front, op);
    assert TextFiled(s.groups) <= Tainted(s.groups);
  }

  lemma NoticedAt(s: TrackerState, ops: seq<Op>, k: nat)
    requires Whole(s) && Writable(s.groups) && k < |ops|
    ensures s.disk.Some? ==> LegibleDisk(s.disk.value)
    ensures ApartAt(s, Restart(s.disk), ops, k) <==> Noticed(s, ops, k)
  {
    NoticedNext(s, ops[..k], ops[k]);
    assert ops[..k] + [ops[k]] == ops[..k + 1];
  }

  lemma SameAnswers(s: TrackerState, s': TrackerState, ops: seq<Op>)
    ensures Answers(s, ops) == Answers(s', ops) <==> forall k: nat | k < |ops| :: !ApartAt(s, s', ops, k)
  {
    AnswersLength(s, ops);
    AnswersLength(s', ops);
    forall k: nat | k < |ops| ensures Answers(s, ops)[k] != Answers(s', ops)[k] <==> ApartAt(s, s', ops, k) {
      AnswerAt(s, ops, k);
      AnswerAt(s', ops, k);
    }
  }

  lemma NoticedIff(s: TrackerState, ops: seq<Op>)
    requires Whole(s) && Writable(s.groups)
    ensures s.disk.Some? ==> LegibleDisk(s.disk.value)
    ensures Answers(s, ops) == Answers(Restart(s.disk), ops) <==> !Notices(s, ops)
  {
    RestartIsTwin(s);
    SameAnswers(s, Restart(s.disk), ops);
    forall k: nat | k < |ops| ensures ApartAt(s, Restart(s.disk), ops, k) <==> Noticed(s, ops, k) {
      NoticedAt(s, ops, k);
    }
  }

  /** A valid failure report about a group whose snapshot held reasons. */
  predicate Troubles(op: Op, s: TrackerState) {
    op.Fail? && op.groupId in Tainted(s.groups) && s.groups[op.groupId].HasIndex(op.index)
  }

  predicate AnyTroubles(ops: seq<Op>, s: TrackerState) {
    exists k | 0 <= k < |ops| :: Troubles(ops[k], s)
  }

  /** Nothing is pending without trouble. */
  lemma {:induction false} NoTroubleNoPending(s: TrackerState, ops: seq<Op>, id: string)
    requires id in Tainted(s.groups) && Pending(s, ops, id) != {}
    ensures AnyTroubles(ops, s)
  {
    var n := |ops| - 1;
    var front, last := ops[..n], ops[n];
    ResponsesAreWriteOnce(s, front);
    if Pending(s, front, id) != {} {
      NoTroubleNoPending(s, front, id);
      var k :| 0 <= k < n && Troubles(front[k], s);
      assert Troubles(ops[k], s);
    } else {
      assert Troubles(ops[n], s);
    }
  }

  /** Trouble is pending at once. */
  lemma TroubleIsPending(s: TrackerState, ops: seq<Op>, k: nat)
    requires k < |ops| && Troubles(ops[k], s)
    ensures Writes(Run(s, ops[..k]), ops[k]) && !Settled(s, ops[..k + 1], Tainted(s.groups))
  {
    var id := ops[k].groupId;
    ResponsesAreWriteOnce(s, ops[..k]);
    assert ops[..k + 1][..k] == ops[..k];
    assert ops[k].index in Pending(s, ops[..k + 1], id);
  }

  /** When a restart can be noticed. After any history whose last change could
      be written, the restarted tracker keeps the same groups as the other one
      whatever is reported, and a continuation is answered alike exactly if no
      report in it is noticed. Without a valid failure report about a group
      whose snapshot held reasons none is; and if no such group had been
      through a restart before, the first such report is. */
  lemma RestartIsTransparentIff(before: seq<Event>, after: seq<Op>)
    requires Writable(Live(EMPTY, before).groups)
    ensures var s := Live(EMPTY, before);
      && (s.disk.Some? ==> LegibleDisk(s.disk.value))
      && var s' := Restart(s.disk);
      && Twins(Run(s, after), Run(s', after), Refiled(s.groups))
      && (Answers(s, after) == Answers(s', after) <==> !Notices(s, after))
      && (!AnyTroubles(after, s) ==> !Notices(s, after))
      && (TextFiled(s.groups) == {} ==> (Notices(s, after) <==> AnyTroubles(after, s)))
  {
    var s := Live(EMPTY, before);
    TwinsWrite(s, after);
    NoticedIff(s, after);
    if Notices(s, after) {
      var k: nat :| k < |after| && Noticed(s, after, k);
      var id :| id in Tainted(s.groups) && Pending(s, after[..k + 1], id) != {};
      NoTroubleNoPending(s, after[..k + 1], id);
      var j :| 0 <= j < k + 1 && Troubles(after[..k + 1][j], s);
      assert Troubles(after[j], s);
    }
    if TextFiled(s.groups) == {} && AnyTroubles(after, s) {
      var k: nat :| k < |after| && Troubles(after[k], s);
      TroubleIsPending(s, after, k);
      assert Noticed(s, after, k);
    }
  }

  /** A tracker that was never restarted is never short of a write, so that the
      above applies to all its histories. */
  lemma {:induction false} NeverRestarted(ops: seq<Op>)
    ensures var events := seq(|ops|, k requires 0 <= k < |ops| => Report(ops[k]));
      && Live(EMPTY, events) == Run(EMPTY, ops)
      && Writable(Run(EMPTY, ops).groups) && TextFiled(Run(EMPTY, ops).groups) == {}
  {
    RunIsSynced(ops);
    var events := seq(|ops|, k requires 0 <= k < |ops| => Report(ops[k]));
    if ops != [] {
      var front := ops[..|ops| - 1];
      NeverRestarted(front);
      var earlier := seq(|front|, k requires 0 <= k < |front| => Report(front[k]));
      assert events[..|events| - 1] == earlier;
    }
  }

  /** After a restart, whatever was before, the file is stale exactly while a
      failure reported since, about a group the file held reasons of, awaits its
      response. */
  lemma StaleWhilePending(before: seq<Event>, after: seq<Op>)
    ensures var s := Live(EMPTY, before);
      && (s.disk.Some? ==> LegibleDisk(s.disk.value))
      && var s' := Restart(s.disk);
      && (Current(Run(s', after)) <==> Settled(s', after, TextFiled(s'.groups)))
      && (Writable(s.groups) ==> (Current(Run(s', after)) <==> Settled(s, after, Tainted(s.groups))))
  {
    var s := Live(EMPTY, before);
    RebootKeepsWhole(s);
    RunKeepsWhole(Restart(s.disk), after);
    WritableIffSettled(Restart(s.disk), after);
    if Writable(s.groups) { TwinsWrite(s, after); }
  }

  /** Right after a restart such a report is refused with a type error and not
      written. Without the restart it is taken, unless its group had been
      through a restart before. */
  lemma TroubleTellsThemApart(s: TrackerState, op: Op)
    requires Whole(s) && Writable(s.groups) && Troubles(op, s)
    ensures s.disk.Some? ==> LegibleDisk(s.disk.value)
    ensures var s' := Restart(s.disk);
      && Step(s', op).answer == Rejected(TypeError)
      && Step(s', op).state.disk == s'.disk && !Writable(Step(s', op).state.groups)
    ensures Step(s, op).answer == if op.groupId in TextFiled(s.groups) then Rejected(TypeError) else Done
  {
    TroubleRemains(s, op);
    FailureIsAnswered(s, op);
    FailureIsAnswered(Restart(s.disk), op);
  }

  lemma TroubleRemains(s: TrackerState, op: Op)
    requires Whole(s) && Writable(s.groups) && Troubles(op, s)
    ensures s.disk.Some? ==> LegibleDisk(s.disk.value)
    ensures var s' := Restart(s.disk);
      && s'.durable && Writable(s'.groups) && op.groupId in TextFiled(s'.groups)
      && op.groupId in s'.groups && s'.groups[op.groupId].HasIndex(op.index)
  {
    RestartIsTwin(s);
    RebootKeepsWhole(s);
    var s' := Restart(s.disk);
    assert TwinGroups(s.groups[op.groupId], s'.groups[op.groupId], op.groupId in Refiled(s.groups));
    assert s'.groups[op.groupId].Bare().size == s.groups[op.groupId].Bare().size;
  }

  lemma FailureIsWritable(s: TrackerState, op: Op)
    requires Writable(s.groups) && op.Fail? && op.groupId in s.groups && s.groups[op.groupId].HasIndex(op.index)
    ensures Writable(Step(s, op).state.groups) <==> op.groupId !in TextFiled(s.groups)
  {
    OnePending(s, op);
    WritableIffSettled(s, [op]);
    assert op.index in Pending(s, [op], op.groupId);
  }

  lemma FailureIsAnswered(s: TrackerState, op: Op)
    requires s.durable && Writable(s.groups)
    requires op.Fail? && op.groupId in s.groups && s.groups[op.groupId].HasIndex(op.index)
    ensures var reply := Step(s, op);
      if op.groupId in TextFiled(s.groups)
      then reply.answer == Rejected(TypeError) && reply.state.disk == s.disk && !Writable(reply.state.groups)
      else reply.answer == Done
  {
    FailureIsWritable(s, op);
  }

  /** Of one failure report just its sample is pending. */
  lemma OnePending(s: TrackerState, op: Op)
    requires op.Fail? && op.groupId in s.groups && s.groups[op.groupId].HasIndex(op.index)
    ensures forall id | id in s.groups :: Pending(s, [op], id) == if id == op.groupId then {op.index} else {}
    ensures Run(s, [op]) == Step(s, op).state
  {
    assert [op][..0] == [];
  }

  lemma RegistersNew(s: TrackerState, items: seq<Request>, now: nat, window: int, signature: string)
    requires Writes(s, Register(items, now, window, signature))
    ensures var groups, id := Step(s, Register(items, now, window, signature)).state.groups, items[0].groupId;
      && id in groups && groups == s.groups[id := groups[id]]
      && Fresh(groups[id], id) && groups[id].size == |items| && groups[id].version == items[0].policyVersion
  {
    SortPermutes(BySample, items);
    var sorted := SortBy(BySample, items);
    assert sorted[0] in multiset(items);
    assert SameKind(sorted[0], items[0]) && |sorted| == |items|;
    StepAt(s, Register(items, now, window, signature), items[0].groupId);
  }

  /** The shortest history that runs into it: any group is registered, any of
      its samples reported as failed, the tracker restarted, and any of them
      reported as failed again. */
  lemma RestartedTrackerRefuses(
      items: seq<Request>, now: nat, window: int, signature: string, i: int, j: int, reason: string)
    requires Homogeneous(items) && |items| == items[0].groupSize && 0 <= i < |items| && 0 <= j < |items|
    ensures Whole(EMPTY)
    ensures var id := items[0].groupId;
      var history := [Report(Register(items, now, window, signature)), Report(Fail(id, i, reason, false)), Reboot];
      var s := Live(EMPTY, history);
      Step(s, Fail(id, j, reason, false)).answer == Rejected(TypeError)
  {
    var id := items[0].groupId;
    var first, second := Register(items, now, window, signature), Fail(id, i, reason, false);
    RegistersNew(EMPTY, items, now, window, signature);
    StepKeepsSynced(EMPTY, first);
    FailsTwice(Step(EMPTY, first).state, id, i, j, reason);
    ThreeEvents(Report(first), Report(second), Reboot);
  }

  lemma SyncedIsWhole(s: TrackerState)
    requires Synced(s)
    ensures Whole(s)
  {}

  lemma FailsTwice(s: TrackerState, id: string, i: int, j: int, reason: string)
    requires Synced(s) && id in s.groups && s.groups[id].HasIndex(i) && s.groups[id].HasIndex(j)
    ensures var t := Step(s, Fail(id, i, reason, false)).state;
      && (t.disk.Some? ==> LegibleDisk(t.disk.value))
      && Step(Restart(t.disk), Fail(id, j, reason, false)).answer == Rejected(TypeError)
  {
    var t := Step(s, Fail(id, i, reason, false)).state;
    StepKeepsSynced(s, Fail(id, i, reason, false));
    FailureTaints(s, id, i, reason);
    RefusedAfterRestart(t, id, j, reason);
  }

  lemma FailureTaints(s: TrackerState, id: string, i: int, reason: string)
    requires id in s.groups && s.groups[id].HasIndex(i)
    ensures var groups := Step(s, Fail(id, i, reason, false)).state.groups;
      id in Tainted(groups) && groups[id].size == s.groups[id].size
  {
    assert IndexKey(i) in WithFailure(s.groups[id], i, reason, false).reasons;
  }

  lemma RefusedAfterRestart(s: TrackerState, id: string, j: int, reason: string)
    requires Synced(s) && id in Tainted(s.groups) && s.groups[id].HasIndex(j)
    ensures s.disk.Some? ==> LegibleDisk(s.disk.value)
    ensures Step(Restart(s.disk), Fail(id, j, reason, false)).answer == Rejected(TypeError)
  {
    SyncedIsWhole(s);
    TroubleTellsThemApart(s, Fail(id, j, reason, false));
  }

  lemma ThreeEvents(a: Event, b: Event, c: Event)
    requires a.Report? && b.Report? && c.Reboot?
    ensures var s := Step(Step(EMPTY, a.op).state, b.op).state;
      (s.disk.Some? ==> LegibleDisk(s.disk.value)) && Live(EMPTY, [a, b, c]) == Restart(s.disk)
  {
    assert [] + [a] == [a] && [a] + [b] == [a, b] && [a, b] + [c] == [a, b, c];
    LiveAppend(EMPTY, [], a);
    LiveAppend(EMPTY, [a], b);
    LiveAppend(EMPTY, [a, b], c);
  }

  function Sample(groupId: string): Request {
    Request("r", "p", groupId, 0, 1, 0, 0, 1, 1, 1.0, 1.0, "", 1.0, 1.0, None, "t", "c")
  }

  /** With one sample: registered, failed, restarted, failed. */
  lemma OneSampleIsEnough()
    ensures Whole(EMPTY)
    ensures var history := [Report(Register([Sample("g")], 0, 1, "")), Report(Fail("g", 0, "lost", false)), Reboot];
      Step(Live(EMPTY, history), Fail("g", 0, "lost", false)).answer == Rejected(TypeError)
  {
    RestartedTrackerRefuses([Sample("g")], 0, 1, "", 0, 0, "lost");
  }

  lemma SampleRegisters(s: TrackerState, id: string)
    requires id !in s.groups
    ensures var groups := Step(s, Register([Sample(id)], 0, 1, "")).state.groups;
      id in groups && groups == s.groups[id := groups[id]] && Fresh(groups[id], id) && groups[id].size == 1
      && groups[id].version == 0
  {
    assert Homogeneous([Sample(id)]);
    RegistersNew(s, [Sample(id)], 0, 1, "");
  }

  // When no continuation whatever can notice a restart.

  lemma {:induction false} LongerThanAll(ids: set<string>) returns (n: nat)
    ensures forall id | id in ids :: |id| < n
    decreases |ids|
  {
    n := 0;
    if ids != {} {
      var one := SomeOf(ids);
      var m := LongerThanAll(ids - {one});
      n := if |one| < m then m else |one| + 1;
      forall id | id in ids ensures |id| < n {
        assert id == one || id in ids - {one};
      }
    }
  }

  lemma UnusedId(ids: set<string>) returns (id: string)
    ensures id !in ids
  {
    var n := LongerThanAll(ids);
    id := seq(n, _ => 'x');
    assert |id| == n;
  }

  /** Registering one more group shows whether the others can be written. */
  lemma RegistrationShows(s: TrackerState, id: string)
    requires s.durable && id !in s.groups
    ensures var answer := Step(s, Register([Sample(id)], 0, 1, "")).answer;
      if Writable(s.groups) then answer.GroupIs? else answer == Rejected(TypeError)
  {
    var op := Register([Sample(id)], 0, 1, "");
    SampleRegisters(s, id);
    SampleWrites(s, id);
    WritesOrNothing(s, op);
    OneMoreIsWritable(s.groups, Step(s, op).state.groups, id);
    RegistrationIsPlain(s, id);
  }

  lemma SampleWrites(s: TrackerState, id: string)
    requires id !in s.groups
    ensures Writes(s, Register([Sample(id)], 0, 1, ""))
  {
    assert Homogeneous([Sample(id)]);
  }

  lemma RegistrationIsPlain(s: TrackerState, id: string)
    requires id !in s.groups
    ensures Plain(s, Register([Sample(id)], 0, 1, "")).GroupIs?
  {
    FirstSorted([Sample(id)]);
  }

  lemma OneMoreIsWritable(groups: map<string, Group>, groups': map<string, Group>, id: string)
    requires id !in groups && id in groups' && groups' == groups[id := groups'[id]] && groups'[id].reasons == map[]
    ensures Writable(groups') <==> Writable(groups)
  {
    if Writable(groups') {
      forall other | other in groups ensures Sortable(groups[other].reasons) {
        assert groups'[other] == groups[other];
      }
    }
  }

  lemma OneAnswer(s: TrackerState, op: Op)
    ensures Answers(s, [op]) == [Seen(Step(s, op).answer)]
  {
    assert [op][..0] == [];
  }

  /** No group holds a failure reason that has not been through a file. */
  ghost predicate AllByText(groups: map<string, Group>) {
    forall id | id in groups :: ByText(groups[id].reasons)
  }

  /** Otherwise some report tells the restarted tracker from the other one: when
      the file is stale, registering any new group; when it is not, a failure of
      a group whose reasons the restart refiled. */
  lemma SomethingTells(s: TrackerState) returns (op: Op)
    requires Whole(s) && !AllByText(s.groups)
    ensures s.disk.Some? ==> LegibleDisk(s.disk.value)
    ensures Answers(s, [op]) != Answers(Restart(s.disk), [op])
  {
    RebootKeepsWhole(s);
    var s' := Restart(s.disk);
    if !Writable(s.groups) {
      var id := UnusedId(s.groups.Keys + s'.groups.Keys);
      op := Register([Sample(id)], 0, 1, "");
      RegistrationShows(s, id);
      RegistrationShows(s', id);
    } else {
      op := FailureTells(s);
    }
    OneAnswer(s, op);
    OneAnswer(s', op);
  }

  lemma FailureTells(s: TrackerState) returns (op: Op)
    requires Whole(s) && Writable(s.groups) && !AllByText(s.groups)
    ensures s.disk.Some? ==> LegibleDisk(s.disk.value)
    ensures Step(s, op).answer == Done && Step(Restart(s.disk), op).answer == Rejected(TypeError)
  {
    var id :| id in s.groups && !ByText(s.groups[id].reasons);
    assert Sound(s.groups[id], id);
    SomeText(s.groups[id].reasons);
    op := Fail(id, 0, "", false);
    TroubleTellsThemApart(s, op);
  }

  lemma AllTextIsNeverNoticed(s: TrackerState, after: seq<Op>)
    requires Whole(s) && AllByText(s.groups)
    ensures s.disk.Some? ==> LegibleDisk(s.disk.value)
    ensures Answers(s, after) == Answers(Restart(s.disk), after)
  {
    TextOrNone(s.groups);
    NoticedIff(s, after);
  }

  /** After every history, with the file stale or not: no continuation can tell a
      restarted tracker from the other one exactly if no group holds a failure
      reason filed since the last restart. */
  lemma RestartIsNeverNoticedIff(before: seq<Event>)
    ensures var s := Live(EMPTY, before);
      && (s.disk.Some? ==> LegibleDisk(s.disk.value))
      && ((forall after: seq<Op> :: Answers(s, after) == Answers(Restart(s.disk), after)) <==> AllByText(s.groups))
  {
    var s := Live(EMPTY, before);
    RebootKeepsWhole(s);
    if AllByText(s.groups) {
      forall after: seq<Op> ensures Answers(s, after) == Answers(Restart(s.disk), after) {
        AllTextIsNeverNoticed(s, after);
      }
    } else {
      var op := SomethingTells(s);
    }
  }

  // The start of a process.

  lemma StoredIsText(d: Stored)
    requires Legible(Read, d.responses)
    ensures ByText(FromStored(d).reasons)
  {
    forall k | k in FromStored(d).reasons ensures k.TextKey? {
      var t :| t in d.reasons && AsText(t) == Some(k);
    }
  }

  /** A process starts whole, whatever file of a tracker it finds, and with all
      its reasons filed as text. */
  lemma StartIsWhole(disk: Option<map<string, Stored>>)
    requires disk.Some? ==> Recorded(disk.value)
    ensures (disk.Some? ==> LegibleDisk(disk.value)) && Whole(Restart(disk)) && AllByText(Restart(disk).groups)
  {
    if disk.Some? {
      RecordedComesBack(disk.value);
      var groups := Restart(disk).groups;
      forall id | id in groups ensures ByText(groups[id].reasons) {
        StoredIsText(disk.value[id]);
      }
    }
  }

  lemma TextOrNone(groups: map<string, Group>)
    requires AllByText(groups)
    ensures Writable(groups) && TextFiled(groups) == Tainted(groups)
    ensures TextFiled(groups) == {} <==> forall id | id in groups :: groups[id].reasons == map[]
  {
    forall id | id in groups ensures id in TextFiled(groups) <==> groups[id].reasons != map[] {
      SomeText(groups[id].reasons);
    }
  }
}
