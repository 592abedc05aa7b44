/** Runs of the weight-update protocol: coordinator calls in any order,
    interleaved with traffic, heartbeats of workers outside the update, update
    RPCs and crashes. What holds in every reachable state, and over whole runs. */
module Protocol {
  import opened Outcomes
  import opened Models
  import opened Versioning

  datatype Step =
    | DoBegin(args: BeginArgs)
    | DoDrain(id: string)
    | DoVerify(id: string, loaded: int, checksum: Option<string>)
    | DoFail(id: string, error: string)
    | DoCommit
    | DoAbort
    | DoCheckTimeout(now: int)
    | Admit(id: string, policyVersion: int, now: int, timeout: int)
    | Progress(id: string, running: nat, queued: nat)
    | Heartbeat(id: string, lifecycle: Lifecycle, version: int, running: nat, queued: nat)
    | UpdateRpc(id: string)
    | Idle

  predicate Participant(s: State, id: string) {
    s.Open() && id in s.active.value.workers
  }

  /** When a step may happen. Coordinator calls may always be made, except that
      a worker is only failed while it is being drained or updated. Work is
      admitted to eligible workers only and otherwise drains away; heartbeats
      do not overwrite participants; an update RPC is sent to a worker that was
      marked drained. */
  predicate Legal(s: State, step: Step) {
    match step
    case DoFail(id, _) =>
      s.Open() ==> Participant(s, id) && id in s.workers
                   && (s.workers[id].lifecycle == Draining || s.workers[id].lifecycle == Updating)
    case Admit(id, v, now, timeout) => id in s.workers && s.workers[id].IsEligible(v, now, timeout)
    case Progress(id, running, queued) => id in s.workers && running + queued <= s.workers[id].InFlight()
    case Heartbeat(id, _, _, _, _) => id in s.workers && !Participant(s, id)
    case UpdateRpc(id) => Participant(s, id) && s.active.value.workers[id].stage == Installing
    case _ => true
  }

  function Apply(s: State, step: Step): State {
    match step
    case DoBegin(a) => Begin(s, a).state
    case DoDrain(id) => Drain(s, id).state
    case DoVerify(id, v, c) => Verify(s, id, v, c).state
    case DoFail(id, e) => Fail(s, id, e).state
    case DoCommit => Commit(s).state
    case DoAbort => Abort(s).state
    case DoCheckTimeout(now) => CheckTimeout(s, now).state
    case Admit(id, _, _, _) =>
      if id in s.workers then s.(workers := s.workers[id := s.workers[id].(queued := s.workers[id].queued + 1)]) else s
    case Progress(id, running, queued) =>
      if id in s.workers
      then s.(workers := s.workers[id := s.workers[id].(running := running, queued := queued)]) else s
    case Heartbeat(id, lifecycle, version, running, queued) =>
      if id in s.workers then
        var w := s.workers[id].(lifecycle := lifecycle, version := version, running := running, queued := queued);
        s.(workers := s.workers[id := w])
      else s
    case UpdateRpc(_) => s
    case Idle => s
  }

  function Run(s: State, steps: seq<Step>): State {
    if steps == [] then s else Apply(Run(s, steps[..|steps| - 1]), steps[|steps| - 1])
  }

  predicate LegalRun(s: State, steps: seq<Step>) {
    steps == []
    || (LegalRun(s, steps[..|steps| - 1]) && Legal(Run(s, steps[..|steps| - 1]), steps[|steps| - 1]))
  }

  // The invariant.

  /** A participant's record and its worker agree. */
  predicate Coupled(u: WeightUpdate, entry: WorkerUpdate, w: Worker) {
    && entry.previous == u.fromVersion && entry.target == u.toVersion
    && match entry.stage
       case Pending =>
         w.version == u.fromVersion && (w.lifecycle == Draining || (u.mode == Rolling && w.lifecycle == Ready))
       case Installing => w.version == u.fromVersion && w.lifecycle == Updating && w.InFlight() == 0
       case Verified => w.version == u.toVersion && w.lifecycle == Ready
       case Broken => w.version == u.fromVersion && w.lifecycle == Failed
  }

  predicate DistinctOrder(order: seq<string>) {
    forall i, j | 0 <= i < j < |order| :: order[i] != order[j]
  }

  predicate AllCoupled(u: WeightUpdate, ws: map<string, Worker>)
    requires u.workers.Keys <= ws.Keys
  {
    forall id | id in u.workers :: Coupled(u, u.workers[id], ws[id])
  }

  ghost predicate Inv(s: State) {
    && Coherent(s)
    && (s.active.Some? && s.durable ==> s.disk == File(1, s.active))
    && (s.Open() ==>
          var u := s.active.value;
          && u.order != [] && DistinctOrder(u.order) && !u.mode.OtherMode? && u.fromVersion < u.toVersion
          && AllCoupled(u, s.workers))
  }

  lemma BeginKeepsInv(s: State, a: BeginArgs)
    requires Inv(s)
    ensures Inv(Begin(s, a).state)
  {
    if BeginError(s, a) == None {
      var ids := Chosen(s, a);
      forall id | id in ids ensures Fit(s.workers, id, a.fromVersion) {}
    }
  }

  /** Only the entries in changed need looking at again. */
  lemma Recouple(u: WeightUpdate, ws: map<string, Worker>, u': WeightUpdate, ws': map<string, Worker>,
                 changed: set<string>)
    requires u.workers.Keys == u'.workers.Keys && u.workers.Keys <= ws.Keys && u.workers.Keys <= ws'.Keys
    requires u'.fromVersion == u.fromVersion && u'.toVersion == u.toVersion && u'.mode == u.mode
    requires AllCoupled(u, ws)
    requires forall p | p in u.workers && p !in changed :: u'.workers[p] == u.workers[p] && ws'[p] == ws[p]
    requires forall p | p in u.workers && p in changed :: Coupled(u', u'.workers[p], ws'[p])
    ensures AllCoupled(u', ws')
  {
    forall p | p in u'.workers ensures Coupled(u', u'.workers[p], ws'[p]) {
      assert Coupled(u, u.workers[p], ws[p]);
    }
  }

  lemma DrainKeepsInv(s: State, id: string)
    requires Inv(s)
    ensures Inv(Drain(s, id).state)
  {
    var s' := Drain(s, id).state;
    if s.Open() && s' != s {
      if id in s.active.value.workers {
        assert Coupled(s.active.value, s.active.value.workers[id], s.workers[id]);
      }
      Recouple(s.active.value, s.workers, s'.active.value, s'.workers, {id});
    }
  }

  lemma FailKeepsInv(s: State, id: string, e: string)
    requires Inv(s) && Legal(s, DoFail(id, e))
    ensures Inv(Fail(s, id, e).state)
  {
    var s' := Fail(s, id, e).state;
    if s.Open() {
      assert Coupled(s.active.value, s.active.value.workers[id], s.workers[id]);
      Recouple(s.active.value, s.workers, s'.active.value, s'.workers, {id});
    }
  }

  lemma InstalledKeepsInv(s: State, id: string, c: Option<string>)
    requires Inv(s) && s.Open() && id in s.active.value.workers && s.active.value.workers[id].stage == Installing
    ensures Inv(Installed(s, id, s.active.value.toVersion, c))
  {
    InstalledStaysCoupled(s, id, c);
  }

  lemma InstalledStaysCoupled(s: State, id: string, c: Option<string>)
    requires Inv(s) && s.Open() && id in s.active.value.workers && s.active.value.workers[id].stage == Installing
    ensures var s' := Installed(s, id, s.active.value.toVersion, c);
      && s'.active.value.workers.Keys == s.active.value.workers.Keys && s'.workers.Keys == s.workers.Keys
      && AllCoupled(s'.active.value, s'.workers)
  {
    var s' := Installed(s, id, s.active.value.toVersion, c);
    var u, u' := s.active.value, s'.active.value;
    assert Coupled(u, u.workers[id], s.workers[id]);
    var next := if u.mode == Rolling then NextPending(u'.order, u'.workers) else None;
    if next.Some? { assert Coupled(u, u.workers[next.value], s.workers[next.value]); }
    Recouple(u, s.workers, u', s'.workers, if next.Some? then {id, next.value} else {id});
  }

  /** A successful verify installs the target version on a drained worker. */
  lemma VerifyInstalls(s: State, id: string, v: int, c: Option<string>)
    requires Inv(s) && Verify(s, id, v, c).outcome == Ok
    ensures s.Open() && id in s.active.value.workers && s.active.value.workers[id].stage == Installing
    ensures Verify(s, id, v, c).state == Installed(s, id, s.active.value.toVersion, c)
  {
    assert Coupled(s.active.value, s.active.value.workers[id], s.workers[id]);
  }

  lemma VerifyKeepsInv(s: State, id: string, v: int, c: Option<string>)
    requires Inv(s)
    ensures Inv(Verify(s, id, v, c).state)
  {
    if Verify(s, id, v, c).outcome == Ok {
      VerifyInstalls(s, id, v, c);
      InstalledKeepsInv(s, id, c);
    } else if Verify(s, id, v, c).state != s {
      FailKeepsInv(s, id, "wrong version");
      FailKeepsInv(s, id, "parameter checksum mismatch");
    }
  }

  lemma EndKeepsInv(s: State, now: int)
    requires Inv(s)
    ensures Inv(Commit(s).state) && Inv(Abort(s).state) && Inv(CheckTimeout(s, now).state)
  {}

  lemma StepKeepsInv(s: State, step: Step)
    requires Inv(s) && Legal(s, step)
    ensures Inv(Apply(s, step))
  {
    match step
    case DoBegin(a) => BeginKeepsInv(s, a);
    case DoDrain(id) => DrainKeepsInv(s, id);
    case DoVerify(id, v, c) => VerifyKeepsInv(s, id, v, c);
    case DoFail(id, e) => FailKeepsInv(s, id, e);
    case DoCommit => EndKeepsInv(s, 0);
    case DoAbort => EndKeepsInv(s, 0);
    case DoCheckTimeout(now) => EndKeepsInv(s, now);
    case _ =>
  }

  lemma {:induction false} RunKeepsInv(s: State, steps: seq<Step>)
    requires Inv(s) && LegalRun(s, steps)
    ensures Inv(Run(s, steps))
  {
    if steps != [] {
      RunKeepsInv(s, steps[..|steps| - 1]);
      StepKeepsInv(Run(s, steps[..|steps| - 1]), steps[|steps| - 1]);
    }
  }

  // Processes: runs interrupted by crashes.

  /** What a process is started with. */
  datatype Launch = Launch(list: seq<Worker>, durable: bool, disk: Disk)

  /** A step of the running process, or a crash and the start of a new process
      with the workers it is given. */
  datatype Event = Do(step: Step) | Crash(list: seq<Worker>)

  ghost predicate Starts(l: Launch) {
    DistinctIds(l.list) && Restart(l.list, l.durable, l.disk).outcome == Ok
  }

  function Origin(l: Launch): State {
    Restart(l.list, l.durable, l.disk).state
  }

  function Happen(s: State, e: Event): State {
    match e
    case Do(step) => Apply(s, step)
    case Crash(list) => Restart(list, s.durable, s.disk).state
  }

  function Live(s: State, events: seq<Event>): State {
    if events == [] then s else Happen(Live(s, events[..|events| - 1]), events[|events| - 1])
  }

  ghost predicate LegalLife(s: State, events: seq<Event>) {
    events == []
    || var before, e := Live(s, events[..|events| - 1]), events[|events| - 1];
       && LegalLife(s, events[..|events| - 1])
       && if e.Do? then Legal(before, e.step) else Starts(Launch(e.list, before.durable, before.disk))
  }

  /** s is reached from the start of a process, over any number of crashes. */
  ghost predicate Reachable(l: Launch, events: seq<Event>, s: State) {
    Starts(l) && LegalLife(Origin(l), events) && s == Live(Origin(l), events)
  }

  /** Every process starts from a state with the invariant, whatever its state
      file says. */
  lemma RestartIsSound(list: seq<Worker>, durable: bool, disk: Disk)
    ensures Inv(Restart(list, durable, disk).state) && !Restart(list, durable, disk).state.Open()
  {
    FreshTable(list);
  }

  // Versions.

  /** A heartbeat by which a worker outside the update reports a lower version. */
  predicate Lowers(s: State, step: Step, id: string) {
    step.Heartbeat? && step.id == id && id in s.workers && step.version < s.workers[id].version
  }

  lemma OtherStepsKeepVersions(s: State, step: Step, id: string)
    requires id in s.workers && !step.DoVerify? && !(step.Heartbeat? && step.id == id)
    ensures id in Apply(s, step).workers && Apply(s, step).workers[id].version == s.workers[id].version
  {}

  lemma VerifyVersion(s: State, p: string, v: int, c: Option<string>, id: string)
    requires Inv(s) && id in s.workers
    ensures id in Verify(s, p, v, c).state.workers
    ensures var w, w', r := s.workers[id], Verify(s, p, v, c).state.workers[id], Verify(s, p, v, c);
      w'.version != w.version ==> id == p && r.outcome == Ok && v == s.active.value.toVersion == w'.version
  {}

  /** Only two things change a worker's version: its installation when it is
      drained, and its own report when it is outside the update. */
  lemma StepVersion(s: State, step: Step, id: string)
    requires Inv(s) && Legal(s, step) && id in s.workers
    ensures id in Apply(s, step).workers
    ensures var w, w' := s.workers[id], Apply(s, step).workers[id];
      if step.Heartbeat? && step.id == id then !Participant(s, id) && w'.version == step.version
      else w'.version != w.version ==>
             && w.lifecycle == Updating && w.InFlight() == 0 && Participant(s, id)
             && w.version == s.active.value.fromVersion && w'.version == s.active.value.toVersion > w.version
  {
    match step
    case DoVerify(p, v, c) =>
      VerifyVersion(s, p, v, c, id);
      if Verify(s, p, v, c).outcome == Ok {
        VerifyInstalls(s, p, v, c);
        assert Coupled(s.active.value, s.active.value.workers[p], s.workers[p]);
      }
    case Heartbeat(p, _, _, _, _) => if p != id { OtherStepsKeepVersions(s, step, id); }
    case _ => OtherStepsKeepVersions(s, step, id);
  }

  /** In every reachable state: a worker with work running or queued changes
      its policy version exactly if it reports another one itself from outside
      the update, and the coordinator changes it only while it is UPDATING. */
  lemma VersionStableUnderLoad(l: Launch, events: seq<Event>, before: State, step: Step, id: string)
    requires Reachable(l, events, before) && Legal(before, step) && id in before.workers
    ensures id in Apply(before, step).workers
    ensures var w, w' := before.workers[id], Apply(before, step).workers[id];
      && (w.InFlight() > 0 && w'.version != w.version <==>
            w.InFlight() > 0 && step.Heartbeat? && step.id == id && step.version != w.version)
      && (w'.version != w.version && !step.Heartbeat? ==> w.lifecycle == Updating && w.InFlight() == 0)
  {
    LivesAreSound(l, events);
    StepVersion(before, step, id);
  }

  /** At no step of the run does the worker's version go back. */
  ghost predicate Ascends(s: State, steps: seq<Step>, id: string) {
    steps == []
    || var before, after := Run(s, steps[..|steps| - 1]), Run(s, steps);
       && Ascends(s, steps[..|steps| - 1], id)
       && id in before.workers && id in after.workers && before.workers[id].version <= after.workers[id].version
  }

  ghost predicate NeverLowered(s: State, steps: seq<Step>, id: string) {
    steps == []
    || (NeverLowered(s, steps[..|steps| - 1], id) && !Lowers(Run(s, steps[..|steps| - 1]), steps[|steps| - 1], id))
  }

  /** Over any sequence of updates a worker's version never goes back, unless
      the worker itself reports a lower one from outside an update. */
  lemma {:induction false} VersionMonotone(s: State, steps: seq<Step>, id: string)
    requires Inv(s) && LegalRun(s, steps) && id in s.workers
    ensures id in Run(s, steps).workers
    ensures Ascends(s, steps, id) <==> NeverLowered(s, steps, id)
    ensures NeverLowered(s, steps, id) ==> s.workers[id].version <= Run(s, steps).workers[id].version
  {
    if steps != [] {
      var front := steps[..|steps| - 1];
      VersionMonotone(s, front, id);
      RunKeepsInv(s, front);
      StepVersion(Run(s, front), steps[|steps| - 1], id);
    }
  }

  // How an update ends.

  /** An update can be committed exactly when every participant serves the new
      version; status plays no part. */
  lemma CommitIffAllServeNewVersion(s: State)
    requires Inv(s)
    ensures Commit(s).outcome == Ok <==>
            s.Open() && forall id | id in s.active.value.workers ::
              s.workers[id].lifecycle == Ready && s.workers[id].version == s.active.value.toVersion
  {
    if s.Open() {
      var u := s.active.value;
      forall id | id in u.workers
        ensures u.workers[id].stage == Verified <==>
                  s.workers[id].lifecycle == Ready && s.workers[id].version == u.toVersion
      {
        assert Coupled(u, u.workers[id], s.workers[id]);
      }
    }
  }

  /** What an abort leaves behind: nobody draining or updating, nobody serving
      the new version, and whoever still serves does so at the old one. */
  ghost predicate CleanlyAborted(s: State, id: string) {
    && s.active.Some? && s.active.value.status == Aborted
    && id in s.active.value.workers && id in s.workers
    && s.workers[id].lifecycle != Draining && s.workers[id].lifecycle != Updating
    && (s.workers[id].lifecycle == Ready ==> s.workers[id].version == s.active.value.fromVersion)
  }

  lemma AbortIsClean(s: State, id: string)
    requires Inv(s) && Participant(s, id)
    ensures Abort(s).outcome == Ok && CleanlyAborted(Abort(s).state, id)
  {
    assert Coupled(s.active.value, s.active.value.workers[id], s.workers[id]);
  }

  ghost predicate BrokenAt(s: State, id: string) {
    && s.active.Some? && s.active.value.status != Committed
    && id in s.active.value.workers && s.active.value.workers[id].stage == Broken
  }

  lemma VerifyKeepsBroken(s: State, p: string, v: int, c: Option<string>, id: string)
    requires Inv(s) && BrokenAt(s, id)
    ensures BrokenAt(Verify(s, p, v, c).state, id)
  {
    if s.Open() { assert Coupled(s.active.value, s.active.value.workers[id], s.workers[id]); }
  }

  lemma DrainKeepsBroken(s: State, p: string, id: string)
    requires Inv(s) && BrokenAt(s, id)
    ensures BrokenAt(Drain(s, p).state, id)
  {
    if s.Open() { assert Coupled(s.active.value, s.active.value.workers[id], s.workers[id]); }
  }

  lemma EndKeepsBroken(s: State, now: int, id: string)
    requires Inv(s) && BrokenAt(s, id)
    ensures BrokenAt(Commit(s).state, id) && BrokenAt(Abort(s).state, id) && BrokenAt(CheckTimeout(s, now).state, id)
  {}

  lemma FailKeepsBroken(s: State, p: string, e: string, id: string)
    requires BrokenAt(s, id)
    ensures BrokenAt(Fail(s, p, e).state, id)
  {}

  lemma BrokenStays(s: State, step: Step, id: string)
    requires Inv(s) && Legal(s, step) && !step.DoBegin? && BrokenAt(s, id)
    ensures BrokenAt(Apply(s, step), id)
  {
    match step
    case DoVerify(p, v, c) => VerifyKeepsBroken(s, p, v, c, id);
    case DoDrain(p) => DrainKeepsBroken(s, p, id);
    case DoFail(p, e) => FailKeepsBroken(s, p, e, id);
    case DoCommit => EndKeepsBroken(s, 0, id);
    case DoAbort => EndKeepsBroken(s, 0, id);
    case DoCheckTimeout(now) => EndKeepsBroken(s, now, id);
    case _ =>
  }

  /** Once a participant failed, its update never commits, although the status
      may read UPDATING again when another participant drains. */
  lemma {:induction false} FailureBlocksCommit(s: State, steps: seq<Step>, id: string)
    requires Inv(s) && LegalRun(s, steps) && s.Open() && BrokenAt(s, id)
    requires forall i | 0 <= i < |steps| :: !steps[i].DoBegin?
    ensures BrokenAt(Run(s, steps), id)
  {
    if steps != [] {
      var front := steps[..|steps| - 1];
      FailureBlocksCommit(s, front, id);
      RunKeepsInv(s, front);
      BrokenStays(Run(s, front), steps[|steps| - 1], id);
    }
  }

  // The shape of a rolling update.

  /** The first k participants are verified, the rest beyond the k-th are
      untouched, and the k-th is being drained, updated, or has failed. */
  ghost predicate ShapeAt(s: State, k: nat)
    requires Inv(s) && s.Open()
  {
    var u := s.active.value;
    && k <= |u.order|
    && (forall i | 0 <= i < k :: StageOf(u, i) == Verified)
    && (forall i | k < i < |u.order| :: StageOf(u, i) == Pending && WorkerAt(s, i).lifecycle == Ready)
    && (k < |u.order| ==> StageOf(u, k) != Verified && WorkerAt(s, k).lifecycle != Ready)
  }

  function StageOf(u: WeightUpdate, i: nat): Stage
    requires i < |u.order| && SetOf(u.order) == u.workers.Keys
  {
    assert u.order[i] in SetOf(u.order);
    u.workers[u.order[i]].stage
  }

  function WorkerAt(s: State, i: nat): Worker
    requires s.Open() && i < |s.active.value.order|
    requires SetOf(s.active.value.order) == s.active.value.workers.Keys <= s.workers.Keys
  {
    assert s.active.value.order[i] in SetOf(s.active.value.order);
    s.workers[s.active.value.order[i]]
  }

  ghost predicate Shape(s: State)
    requires Inv(s)
  {
    s.Open() && s.active.value.mode == Rolling ==> exists k: nat :: ShapeAt(s, k)
  }

  lemma CoupledAt(s: State, i: nat)
    requires Inv(s) && s.Open() && i < |s.active.value.order|
    ensures var u := s.active.value;
      u.order[i] in u.workers && StageOf(u, i) == u.workers[u.order[i]].stage
          && Coupled(u, u.workers[u.order[i]], WorkerAt(s, i))
  {
    assert s.active.value.order[i] in SetOf(s.active.value.order);
  }

  lemma BeginMakesShape(s: State, a: BeginArgs)
    requires Inv(s) && Begin(s, a).outcome == Ok && a.mode == Rolling
    ensures Inv(Begin(s, a).state) && ShapeAt(Begin(s, a).state, 0)
  {
    BeginKeepsInv(s, a);
    var s' := Begin(s, a).state;
    forall i | 0 < i < |s'.active.value.order| ensures WorkerAt(s', i).lifecycle == Ready {
      assert s'.active.value.order[i] in Chosen(s, a);
    }
  }

  /** The participant a drain, verify or failure can hit is the k-th. */
  lemma OnlyFrontier(s: State, k: nat, i: nat)
    requires Inv(s) && s.Open() && ShapeAt(s, k) && i < |s.active.value.order|
    requires WorkerAt(s, i).lifecycle == Draining || WorkerAt(s, i).lifecycle == Updating
    ensures i == k
  {
    CoupledAt(s, i);
  }

  lemma IndexOf(order: seq<string>, id: string) returns (i: nat)
    requires id in SetOf(order)
    ensures i < |order| && order[i] == id
  {
    i :| 0 <= i < |order| && order[i] == id;
  }

  lemma FailKeepsShape(s: State, id: string, e: string, k: nat)
    requires Inv(s) && Participant(s, id) && ShapeAt(s, k) && Legal(s, DoFail(id, e))
    ensures Inv(Fail(s, id, e).state) && ShapeAt(Fail(s, id, e).state, k)
  {
    FailKeepsInv(s, id, e);
    var j := IndexOf(s.active.value.order, id);
    OnlyFrontier(s, k, j);
    OthersStay(s, Fail(s, id, e).state, k);
  }

  /** A step that touches only the k-th participant keeps the shape if it
      leaves that one unverified and out of service. */
  lemma OthersStay(s: State, s': State, k: nat)
    requires Inv(s) && s.Open() && ShapeAt(s, k) && Inv(s') && s'.Open()
    requires s'.active.value.order == s.active.value.order && k < |s.active.value.order|
    requires forall id | id in s.active.value.workers && id != s.active.value.order[k] ::
               s'.active.value.workers[id] == s.active.value.workers[id] && s'.workers[id] == s.workers[id]
    requires StageOf(s'.active.value, k) != Verified && WorkerAt(s', k).lifecycle != Ready
    ensures ShapeAt(s', k)
  {
    var u, u' := s.active.value, s'.active.value;
    forall i | 0 <= i < |u.order| && i != k
      ensures StageOf(u', i) == StageOf(u, i) && WorkerAt(s', i) == WorkerAt(s, i)
    {
      assert u.order[i] in SetOf(u.order);
    }
  }

  lemma DrainKeepsShape(s: State, id: string, k: nat)
    requires Inv(s) && s.Open() && ShapeAt(s, k)
    ensures Inv(Drain(s, id).state) && Drain(s, id).state.Open() && ShapeAt(Drain(s, id).state, k)
  {
    DrainKeepsInv(s, id);
    var s' := Drain(s, id).state;
    if Participant(s, id) && s' != s {
      var j := IndexOf(s.active.value.order, id);
      OnlyFrontier(s, k, j);
      OthersStay(s, s', k);
    } else {
      assert forall i | 0 <= i < |s.active.value.order| :: StageOf(s'.active.value, i) == StageOf(s.active.value, i);
      forall i | 0 <= i < |s.active.value.order| ensures WorkerAt(s', i) == WorkerAt(s, i) {
        assert s.active.value.order[i] in SetOf(s.active.value.order);
      }
    }
  }

  /** The participant being updated is the one at the frontier. */
  lemma FrontierInstalls(s: State, id: string, k: nat)
    requires Inv(s) && s.Open() && ShapeAt(s, k)
    requires id in s.active.value.workers && s.active.value.workers[id].stage == Installing
    ensures k < |s.active.value.order| && id == s.active.value.order[k]
  {
    var j := IndexOf(s.active.value.order, id);
    CoupledAt(s, j);
    OnlyFrontier(s, k, j);
  }

  lemma InstallsFrontier(s: State, id: string, c: Option<string>, k: nat)
    requires Inv(s) && s.Open() && ShapeAt(s, k)
    requires id in s.active.value.workers && s.active.value.workers[id].stage == Installing
    ensures k < |s.active.value.order| && id == s.active.value.order[k]
    ensures var u := s.active.value;
      var entries := u.workers[id := u.workers[id].(checksum := c, stage := Verified)];
      && (forall i | 0 <= i < |u.order| ::
            u.order[i] in entries && entries[u.order[i]].stage == if i <= k then Verified else Pending)
      && NextPending(u.order, entries) == if k + 1 < |u.order| then Some(u.order[k + 1]) else None
  {
    var u := s.active.value;
    var entries := u.workers[id := u.workers[id].(checksum := c, stage := Verified)];
    FrontierInstalls(s, id, k);
    forall i | 0 <= i < |u.order|
      ensures u.order[i] in entries && entries[u.order[i]].stage == if i <= k then Verified else Pending
    {
      CoupledAt(s, i);
      assert i != k ==> u.order[i] != id;
    }
    NextIsAfter(u.order, entries, k);
  }

  /** The installed participant is the k-th, and the next one in order drains. */
  lemma InstalledAdvancesShape(s: State, id: string, c: Option<string>, k: nat)
    requires Inv(s) && s.Open() && s.active.value.mode == Rolling && ShapeAt(s, k)
    requires id in s.active.value.workers && s.active.value.workers[id].stage == Installing
    ensures Inv(Installed(s, id, s.active.value.toVersion, c))
    ensures ShapeAt(Installed(s, id, s.active.value.toVersion, c), k + 1)
    ensures id == s.active.value.order[k]
  {
    InstalledKeepsInv(s, id, c);
    FrontierInstalls(s, id, k);
    var u, s' := s.active.value, Installed(s, id, s.active.value.toVersion, c);
    assert s'.Open() && s'.active.value.order == u.order;
    forall i | 0 <= i < |u.order| ensures StageOf(s'.active.value, i) == if i <= k then Verified else Pending {
      InstalledStage(s, id, c, k, i);
    }
    forall i | k < i < |u.order| ensures WorkerAt(s', i).lifecycle == if i == k + 1 then Draining else Ready {
      InstalledWorker(s, id, c, k, i);
    }
  }

  /** Of the other workers just the next pending participant starts draining. */
  lemma InstalledOther(s: State, id: string, c: Option<string>, other: string)
    requires s.Open() && id in s.active.value.workers && id in s.workers && other in s.workers && other != id
    ensures var u := s.active.value;
      var entries := u.workers[id := u.workers[id].(checksum := c, stage := Verified)];
      var ws := Installed(s, id, u.toVersion, c).workers;
      && other in ws
      && ws[other].lifecycle ==
         if u.mode == Rolling && NextPending(u.order, entries) == Some(other) then Draining
         else s.workers[other].lifecycle
  {}

  lemma OthersAt(s: State, k: nat, i: nat)
    requires Inv(s) && s.Open() && k < i < |s.active.value.order|
    ensures var order := s.active.value.order;
      order[i] != order[k] && (i != k + 1 ==> order[i] != order[k + 1])
  {}

  lemma InstalledStage(s: State, id: string, c: Option<string>, k: nat, i: nat)
    requires Inv(s) && s.Open() && s.active.value.mode == Rolling && ShapeAt(s, k) && i < |s.active.value.order|
    requires id in s.active.value.workers && s.active.value.workers[id].stage == Installing
    requires Inv(Installed(s, id, s.active.value.toVersion, c))
    ensures StageOf(Installed(s, id, s.active.value.toVersion, c).active.value, i)
         == if i <= k then Verified else Pending
  {
    InstallsFrontier(s, id, c, k);
    assert s.active.value.order[i] in SetOf(s.active.value.order);
  }

  lemma InstalledWorker(s: State, id: string, c: Option<string>, k: nat, i: nat)
    requires Inv(s) && s.Open() && s.active.value.mode == Rolling && ShapeAt(s, k) && k < i < |s.active.value.order|
    requires id in s.active.value.workers && s.active.value.workers[id].stage == Installing
    requires Inv(Installed(s, id, s.active.value.toVersion, c))
    ensures WorkerAt(Installed(s, id, s.active.value.toVersion, c), i).lifecycle
         == if i == k + 1 then Draining else Ready
  {
    InstallsFrontier(s, id, c, k);
    CoupledAt(s, i);
    OthersAt(s, k, i);
    InstalledOther(s, id, c, s.active.value.order[i]);
  }

  lemma {:induction false} NextIsAfter(order: seq<string>, entries: map<string, WorkerUpdate>, k: nat)
    requires k < |order| && forall i | 0 <= i < |order| :: order[i] in entries
    requires forall i | 0 <= i <= k :: entries[order[i]].stage == Verified
    requires forall i | k < i < |order| :: entries[order[i]].stage == Pending
    ensures NextPending(order, entries) == if k + 1 < |order| then Some(order[k + 1]) else None
  {
    if k > 0 {
      NextIsAfter(order[1..], entries, k - 1);
    } else if |order| > 1 {
      assert order[1..][0] == order[1];
    }
  }

  /** Traffic and heartbeats of other workers leave the shape alone. */
  lemma UnchangedKeepsShape(s: State, s': State, k: nat)
    requires Inv(s) && s.Open() && ShapeAt(s, k) && Inv(s') && s'.Open() && s'.active == s.active
    requires forall id | id in s.active.value.workers :: s'.workers[id].lifecycle == s.workers[id].lifecycle
    ensures ShapeAt(s', k)
  {
    forall i | 0 <= i < |s.active.value.order| ensures WorkerAt(s', i).lifecycle == WorkerAt(s, i).lifecycle {
      assert s.active.value.order[i] in SetOf(s.active.value.order);
    }
  }

  /** Every other step that leaves the update open leaves it as it is. */
  lemma QuietStepKeeps(s: State, step: Step)
    requires Inv(s) && Legal(s, step) && s.Open() && Apply(s, step).Open()
    requires !step.DoDrain? && !step.DoFail? && !step.DoVerify?
    ensures Apply(s, step).active == s.active
    ensures forall id | id in s.active.value.workers ::
              id in Apply(s, step).workers && Apply(s, step).workers[id].lifecycle == s.workers[id].lifecycle
  {}

  lemma QuietKeepsShape(s: State, step: Step, k: nat)
    requires Inv(s) && Legal(s, step) && s.Open() && ShapeAt(s, k) && Apply(s, step).Open()
    requires !step.DoDrain? && !step.DoFail? && !step.DoVerify?
    ensures Inv(Apply(s, step)) && ShapeAt(Apply(s, step), k)
  {
    StepKeepsInv(s, step);
    QuietStepKeeps(s, step);
    UnchangedKeepsShape(s, Apply(s, step), k);
  }

  lemma OpenStepKeepsShape(s: State, step: Step, k: nat)
    requires Inv(s) && Legal(s, step) && s.Open() && s.active.value.mode == Rolling && ShapeAt(s, k)
    ensures Inv(Apply(s, step)) && Shape(Apply(s, step))
  {
    StepKeepsInv(s, step);
    match step
    case DoDrain(id) => DrainKeepsShape(s, id, k);
    case DoFail(id, e) => FailKeepsShape(s, id, e, k);
    case DoVerify(id, v, c) => VerifyKeepsShape(s, id, v, c, k);
    case _ => if Apply(s, step).Open() { QuietKeepsShape(s, step, k); }
  }

  /** Only begin_update opens an update, and none changes the mode of one. */
  lemma OpensByBegin(s: State, step: Step)
    requires Inv(s) && Legal(s, step) && Apply(s, step).Open()
    ensures if s.Open() then Apply(s, step).active.value.mode == s.active.value.mode
            else step.DoBegin? && Begin(s, step.args).outcome == Ok
                 && Apply(s, step).active.value.mode == step.args.mode
  {}

  lemma StepKeepsShape(s: State, step: Step)
    requires Inv(s) && Legal(s, step) && Shape(s)
    ensures Inv(Apply(s, step)) && Shape(Apply(s, step))
  {
    StepKeepsInv(s, step);
    if Apply(s, step).Open() && Apply(s, step).active.value.mode == Rolling {
      OpensByBegin(s, step);
      if s.Open() {
        var k: nat :| ShapeAt(s, k);
        OpenStepKeepsShape(s, step, k);
      } else {
        BeginMakesShape(s, step.args);
      }
    }
  }

  lemma VerifyKeepsShape(s: State, id: string, v: int, c: Option<string>, k: nat)
    requires Inv(s) && s.Open() && s.active.value.mode == Rolling && ShapeAt(s, k)
    ensures Inv(Verify(s, id, v, c).state) && Shape(Verify(s, id, v, c).state)
  {
    VerifyKeepsInv(s, id, v, c);
    var r := Verify(s, id, v, c);
    if r.outcome == Ok {
      VerifyInstalls(s, id, v, c);
      InstalledAdvancesShape(s, id, c, k);
    } else if r.state == s {
      assert ShapeAt(r.state, k);
    } else {
      FailKeepsShape(s, id, "wrong version", k);
      FailKeepsShape(s, id, "parameter checksum mismatch", k);
    }
  }

  lemma {:induction false} RunKeepsShape(s: State, steps: seq<Step>)
    requires Inv(s) && LegalRun(s, steps) && Shape(s)
    ensures Inv(Run(s, steps)) && Shape(Run(s, steps))
  {
    if steps != [] {
      RunKeepsShape(s, steps[..|steps| - 1]);
      StepKeepsShape(Run(s, steps[..|steps| - 1]), steps[|steps| - 1]);
    }
  }

  ghost predicate Serving(s: State, i: nat)
    requires Inv(s) && s.Open() && i < |s.active.value.order|
  {
    var u, w := s.active.value, WorkerAt(s, i);
    w.lifecycle == Ready && (w.version == u.fromVersion || w.version == u.toVersion)
  }

  /** Every reachable state has the invariant, and the shape if an update is
      rolling: over all runs of all processes, with crashes anywhere. */
  lemma {:induction false} LivesAreSound(l: Launch, events: seq<Event>)
    requires Starts(l) && LegalLife(Origin(l), events)
    ensures Inv(Live(Origin(l), events)) && Shape(Live(Origin(l), events))
    ensures Live(Origin(l), events).durable == l.durable
  {
    if events == [] {
      RestartIsSound(l.list, l.durable, l.disk);
    } else {
      var front, e := events[..|events| - 1], events[|events| - 1];
      LivesAreSound(l, front);
      var before := Live(Origin(l), front);
      match e
      case Do(step) =>
        StepKeepsShape(before, step);
        StepKeepsDurable(before, step);
      case Crash(list) => RestartIsSound(list, before.durable, before.disk);
    }
  }

  lemma StepKeepsDurable(s: State, step: Step)
    ensures Apply(s, step).durable == s.durable
  {}

  /** In every reachable state a rolling update has at most one participant out
      of service, and the others serve the old or the new version. */
  lemma RollingKeepsServing(l: Launch, events: seq<Event>, s: State, i: nat, j: nat)
    requires Reachable(l, events, s)
    requires s.Open() && s.active.value.mode == Rolling && i < j < |s.active.value.order|
    ensures Inv(s) && (Serving(s, i) || Serving(s, j))
  {
    LivesAreSound(l, events);
    ShapeServes(s, i, j);
  }

  lemma ShapeServes(s: State, i: nat, j: nat)
    requires Inv(s) && Shape(s) && s.Open() && s.active.value.mode == Rolling && i < j < |s.active.value.order|
    ensures Serving(s, i) || Serving(s, j)
  {
    var k: nat :| ShapeAt(s, k);
    CoupledAt(s, i);
    CoupledAt(s, j);
  }

  // Crashes.

  /** The snapshot names this update and says it never finished. */
  ghost predicate IncompleteOnDisk(disk: Disk, u: WeightUpdate) {
    disk == File(1, Some(u)) && !u.Ended()
  }

  /** Everything a restart must do with an update that was cut short. */
  ghost predicate RecoversFrom(r: Reply, list: seq<Worker>, u: WeightUpdate) {
    && r.outcome == Ok
    && r.state.active == Some(u.(status := Aborted))
    && r.state.disk == File(1, r.state.active)
    && r.state.workers.Keys == Fresh(list).Keys
    && forall id | id in r.state.workers ::
         r.state.workers[id] == if id in u.workers then Fresh(list)[id].(lifecycle := Recovering) else Fresh(list)[id]
  }

  /** A step writes the state file at most once, as its last act, so a crash
      inside it leaves the file of before or after. Whenever the update is open
      before or after the step, a crash finds it incomplete on disk, and the next
      process aborts it and sends every known participant to recovery, whatever
      it believes about its workers. */
  lemma CrashSafety(l: Launch, events: seq<Event>, before: State, step: Step, list: seq<Worker>)
    requires Reachable(l, events, before) && l.durable && Legal(before, step)
    ensures var after := Apply(before, step);
      && (after.disk == before.disk || after.disk == File(1, after.active))
      && (before.Open() ==>
            IncompleteOnDisk(before.disk, before.active.value)
            && RecoversFrom(Restart(list, true, before.disk), list, before.active.value))
      && (after.Open() ==>
            IncompleteOnDisk(after.disk, after.active.value)
            && RecoversFrom(Restart(list, true, after.disk), list, after.active.value))
      && (step.UpdateRpc? ==>
            before.Open() && step.id in before.active.value.workers && step.id in before.workers
            && before.workers[step.id].lifecycle == Updating && before.workers[step.id].InFlight() == 0)
  {
    LivesAreSound(l, events);
    StepKeepsInv(before, step);
    StepKeepsDurable(before, step);
    if step.UpdateRpc? {
      assert Coupled(before.active.value, before.active.value.workers[step.id], before.workers[step.id]);
    }
    if before.Open() { RestartRecovers(before, list); }
    if Apply(before, step).Open() { RestartRecovers(Apply(before, step), list); }
    WritesOnce(before, step);
  }

  lemma WritesOnce(s: State, step: Step)
    requires Inv(s) && Legal(s, step)
    ensures Apply(s, step).disk == s.disk || Apply(s, step).disk == File(1, Apply(s, step).active)
  {}

  lemma RestartRecovers(s: State, list: seq<Worker>)
    requires Inv(s) && s.durable && s.Open()
    ensures IncompleteOnDisk(s.disk, s.active.value)
    ensures RecoversFrom(Restart(list, true, s.disk), list, s.active.value)
  {
    var u := s.active.value;
    assert forall id :: id in SetOf(u.order) <==> id in u.workers;
  }

  // Crashes while an update RPC is outstanding.

  /** Something that settles the RPC, or another update in its place. */
  predicate Settles(s: State, step: Step, id: string) {
    match step
    case DoVerify(p, _, _) => p == id
    case DoFail(p, _) => p == id
    case DoBegin(a) => Begin(s, a).outcome == Ok
    case _ => false
  }

  /** An update RPC was sent to the worker, which may be loading ever since. */
  ghost predicate Outstanding(s: State, steps: seq<Step>, id: string) {
    steps != []
    && var front, last := steps[..|steps| - 1], steps[|steps| - 1];
       last == UpdateRpc(id) || (Outstanding(s, front, id) && !Settles(Run(s, front), last, id))
  }

  /** A step that ends the open update. */
  predicate Ends(s: State, step: Step)
    requires s.Open()
  {
    match step
    case DoAbort => true
    case DoCommit => AllVerified(s.active.value)
    case DoCheckTimeout(now) => now > s.active.value.deadline
    case _ => false
  }

  /** Nobody has ended the update since. */
  ghost predicate Unended(s: State, steps: seq<Step>, id: string) {
    steps != []
    && var front, last := steps[..|steps| - 1], steps[|steps| - 1];
       last == UpdateRpc(id) || (Unended(s, front, id) && Run(s, front).Open() && !Ends(Run(s, front), last))
  }

  /** The record of the RPC's worker is still where the RPC found it, whether
      the update is open or was aborted meanwhile. */
  ghost predicate Loading(s: State, id: string) {
    && s.active.Some? && id in s.active.value.workers && s.active.value.workers[id].stage == Installing
    && (s.Open() || s.active.value.status == Aborted)
  }

  lemma StepKeepsLoading(s: State, step: Step, id: string)
    requires Inv(s) && Loading(s, id) && Legal(s, step) && !Settles(s, step, id)
    ensures Loading(Apply(s, step), id)
    ensures Apply(s, step).Open() <==> s.Open() && !Ends(s, step)
  {
    match step
    case DoVerify(p, v, c) => VerifyKeepsLoading(s, p, v, c, id);
    case DoDrain(p) => DrainKeepsLoading(s, p, id);
    case DoFail(p, e) => FailKeepsLoading(s, p, e, id);
    case DoCommit => EndKeepsLoading(s, 0, id);
    case DoAbort => EndKeepsLoading(s, 0, id);
    case DoCheckTimeout(now) => EndKeepsLoading(s, now, id);
    case _ =>
  }

  lemma VerifyKeepsLoading(s: State, p: string, v: int, c: Option<string>, id: string)
    requires Loading(s, id) && p != id
    ensures Loading(Verify(s, p, v, c).state, id) && (Verify(s, p, v, c).state.Open() <==> s.Open())
  {}

  lemma DrainKeepsLoading(s: State, p: string, id: string)
    requires Inv(s) && Loading(s, id)
    ensures Loading(Drain(s, p).state, id) && (Drain(s, p).state.Open() <==> s.Open())
  {
    if s.Open() { assert Coupled(s.active.value, s.active.value.workers[id], s.workers[id]); }
  }

  lemma FailKeepsLoading(s: State, p: string, e: string, id: string)
    requires Loading(s, id) && p != id
    ensures Loading(Fail(s, p, e).state, id) && (Fail(s, p, e).state.Open() <==> s.Open())
  {}

  lemma EndKeepsLoading(s: State, now: int, id: string)
    requires Loading(s, id)
    ensures Commit(s).state == s
    ensures Loading(Abort(s).state, id) && !Abort(s).state.Open()
    ensures Loading(CheckTimeout(s, now).state, id)
    ensures CheckTimeout(s, now).state.Open() <==> s.Open() && !Ends(s, DoCheckTimeout(now))
  {}

  lemma {:induction false} OutstandingIsLoading(s: State, steps: seq<Step>, id: string)
    requires Inv(s) && LegalRun(s, steps) && Outstanding(s, steps, id)
    ensures Loading(Run(s, steps), id) && (Run(s, steps).Open() <==> Unended(s, steps, id))
  {
    var front, last := steps[..|steps| - 1], steps[|steps| - 1];
    RunKeepsInv(s, front);
    if last != UpdateRpc(id) {
      OutstandingIsLoading(s, front, id);
      StepKeepsLoading(Run(s, front), last, id);
    }
  }

  /** A crash while an update RPC may be outstanding. If nobody ended the update
      meanwhile it is on disk as incomplete, and the next process sends every
      known participant to recovery. If somebody aborted it the file says so,
      and the next process takes every worker at its word, the one that may
      still be loading too. */
  lemma CrashDuringRpc(l: Launch, events: seq<Event>, s: State, steps: seq<Step>, id: string, list: seq<Worker>)
    requires Reachable(l, events, s) && l.durable && LegalRun(s, steps) && Outstanding(s, steps, id)
    ensures var end := Run(s, steps);
      && Loading(end, id)
      && if Unended(s, steps, id)
         then end.Open() && IncompleteOnDisk(end.disk, end.active.value)
              && RecoversFrom(Restart(list, true, end.disk), list, end.active.value)
         else end.disk == File(1, end.active) && end.active.value.status == Aborted
              && Restart(list, true, end.disk).state.workers == Fresh(list)
  {
    LivesAreSound(l, events);
    OutstandingIsLoading(s, steps, id);
    RunKeepsDurable(s, steps);
    RunKeepsInv(s, steps);
    if Run(s, steps).Open() { RestartRecovers(Run(s, steps), list); }
  }

  lemma {:induction false} RunKeepsDurable(s: State, steps: seq<Step>)
    ensures Run(s, steps).durable == s.durable
  {
    if steps != [] {
      RunKeepsDurable(s, steps[..|steps| - 1]);
      StepKeepsDurable(Run(s, steps[..|steps| - 1]), steps[|steps| - 1]);
    }
  }

  /** The shortest such run: an RPC is sent, somebody aborts, the process dies. */
  lemma AbortedRpcIsForgotten(s: State, id: string, list: seq<Worker>)
    requires Inv(s) && s.durable && s.Open()
    requires id in s.active.value.workers && s.active.value.workers[id].stage == Installing
    ensures var steps := [UpdateRpc(id), DoAbort];
      && LegalRun(s, steps) && Outstanding(s, steps, id) && !Unended(s, steps, id)
      && Restart(list, true, Run(s, steps).disk).state.workers == Fresh(list)
  {
    var steps := [UpdateRpc(id), DoAbort];
    OneStep(s, UpdateRpc(id));
    assert steps[..1] == [UpdateRpc(id)] && steps[1] == DoAbort;
    assert Outstanding(s, steps[..1], id) by { assert steps[..1][0] == UpdateRpc(id); }
    assert Run(s, steps[..1]) == s && Ends(s, DoAbort) && !Settles(s, DoAbort, id);
  }

  lemma OneStep(s: State, step: Step)
    ensures Run(s, [step]) == Apply(s, step) && (LegalRun(s, [step]) <==> Legal(s, step))
  {
    assert [step][..0] == [];
  }

  /** One process after another on the same file, each with its own workers. */
  function Relaunched(disk: Disk, lists: seq<seq<Worker>>): State
    requires lists != []
  {
    var n := |lists| - 1;
    Restart(lists[n], true, if n == 0 then disk else Relaunched(disk, lists[..n]).disk).state
  }

  /** A crash takes a participant out of service exactly if the update was
      still open, and then only in the next process: that one writes ABORTED,
      and every later one trusts whatever its workers claim. */
  lemma {:induction false} OnlyFirstRestartRecovers(s: State, lists: seq<seq<Worker>>, id: string)
    requires Inv(s) && s.durable && s.active.Some? && id in s.active.value.order
    requires lists != [] && id in Fresh(lists[0]) && Fresh(lists[0])[id].lifecycle != Recovering
    ensures Restart(lists[0], true, s.disk).state.workers[id].lifecycle == Recovering <==> s.Open()
    ensures |lists| > 1 ==> Relaunched(s.disk, lists).workers == Fresh(lists[|lists| - 1])
    ensures var end := Relaunched(s.disk, lists);
      end.durable && end.disk == File(1, end.active) && end.active.Some? && end.active.value.Ended()
  {
    var n := |lists| - 1;
    if n > 0 {
      OnlyFirstRestartRecovers(s, lists[..n], id);
    }
  }
}
