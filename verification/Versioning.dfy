/** The weight-update coordinator: one update at a time over a set of workers,
    with a durable snapshot after every transition. */
module Versioning {
  import opened Outcomes
  import opened Models

  datatype Mode = StopTheWorld | Rolling | OtherMode(name: string)

  /** Where one participant stands. */
  datatype Stage = Pending | Installing | Verified | Broken

  datatype WorkerUpdate = WorkerUpdate(
    previous: int, target: int, stage: Stage, checksum: Option<string>, error: Option<string>)

  datatype Status = StatusDraining | StatusUpdating | StatusFailed | Committed | Aborted

  /** order lists the participants as they were given; workers has the same keys. */
  datatype WeightUpdate = WeightUpdate(
    id: string,
    fromVersion: int,
    toVersion: int,
    mode: Mode,
    deadline: int,
    status: Status,
    expectedChecksum: Option<string>,
    order: seq<string>,
    workers: map<string, WorkerUpdate>)
  {
    predicate Ended() { status == Committed || status == Aborted }
  }

  /** The state file. Worker versions in it are for audit only and never read. */
  datatype Disk = NoFile | File(schema: int, active: Option<WeightUpdate>)

  datatype State = State(
    names: seq<string>,
    workers: map<string, Worker>,
    active: Option<WeightUpdate>,
    disk: Disk,
    durable: bool)
  {
    predicate Open() { active.Some? && !active.value.Ended() }
  }

  datatype Reply = Reply(state: State, outcome: Outcome)

  datatype BeginArgs = BeginArgs(
    fromVersion: int,
    toVersion: int,
    mode: Mode,
    now: int,
    timeout: int,
    expectedChecksum: Option<string>,
    workerIds: Option<seq<string>>,
    updateId: string)

  function SetLifecycle(ws: map<string, Worker>, ids: set<string>, lifecycle: Lifecycle): (r: map<string, Worker>)
    ensures r.Keys == ws.Keys
  {
    map id | id in ws :: if id in ids then ws[id].(lifecycle := lifecycle) else ws[id]
  }

  function SetOf(ids: seq<string>): set<string> { set id | id in ids }

  lemma MoveOne(ws: map<string, Worker>, ids: seq<string>, i: nat, lifecycle: Lifecycle)
    requires i < |ids|
    ensures var moved := SetLifecycle(ws, SetOf(ids[..i]), lifecycle);
      SetLifecycle(ws, SetOf(ids[..i + 1]), lifecycle)
      == if ids[i] in ws then moved[ids[i] := moved[ids[i]].(lifecycle := lifecycle)] else moved
  {
    assert ids[..i + 1] == ids[..i] + [ids[i]];
  }

  function Persisted(s: State): State {
    if s.durable then s.(disk := File(1, s.active)) else s
  }

  // begin_update

  /** No id list, or an empty one, means every worker. */
  function Chosen(s: State, a: BeginArgs): seq<string> {
    if a.workerIds.Some? && a.workerIds.value != [] then a.workerIds.value else s.names
  }

  predicate Fit(ws: map<string, Worker>, id: string, version: int) {
    id in ws && ws[id].lifecycle == Ready && ws[id].version == version
  }

  function FirstUnfit(ws: map<string, Worker>, ids: seq<string>, version: int): (e: Option<Error>)
    ensures e == None <==> forall id | id in ids :: Fit(ws, id, version)
    ensures e.Some? ==> e.value == KeyError || e.value == ValidationError
  {
    if ids == [] then None
    else if Fit(ws, ids[0], version) then FirstUnfit(ws, ids[1..], version)
    else Some(if ids[0] in ws then ValidationError else KeyError)
  }

  function BeginError(s: State, a: BeginArgs): Option<Error> {
    if a.mode.OtherMode? || a.toVersion <= a.fromVersion || s.Open() || Chosen(s, a) == [] then Some(ValidationError)
    else FirstUnfit(s.workers, Chosen(s, a), a.fromVersion)
  }

  /** The ids in order of first appearance, as a dictionary keeps them. */
  function Dedup(ids: seq<string>): (order: seq<string>)
    ensures forall id :: id in order <==> id in ids
    ensures forall i, j | 0 <= i < j < |order| :: order[i] != order[j]
    ensures ids != [] ==> order != [] && order[0] == ids[0]
  {
    if ids == [] then []
    else
      var n := |ids| - 1;
      var front := Dedup(ids[..n]);
      assert forall id :: id in ids <==> id in ids[..n] || id == ids[n];
      if ids[n] in front then front else front + [ids[n]]
  }

  function NewUpdate(a: BeginArgs, order: seq<string>): WeightUpdate {
    WeightUpdate(a.updateId, a.fromVersion, a.toVersion, a.mode, a.now + a.timeout, StatusDraining, a.expectedChecksum,
                 order, map id | id in order :: WorkerUpdate(a.fromVersion, a.toVersion, Pending, None, None))
  }

  /** Stop-the-world drains every participant at once, rolling the first. */
  function Begun(s: State, a: BeginArgs, ids: seq<string>): State
    requires ids != []
  {
    var order := Dedup(ids);
    var drained := if a.mode == StopTheWorld then SetOf(order) else {order[0]};
    Persisted(s.(active := Some(NewUpdate(a, order)), workers := SetLifecycle(s.workers, drained, Draining)))
  }

  function Begin(s: State, a: BeginArgs): Reply {
    match BeginError(s, a)
    case Some(e) => Reply(s, Raised(e))
    case None => Reply(Begun(s, a, Chosen(s, a)), Ok)
  }

  lemma BeginKeepsCoherent(s: State, a: BeginArgs)
    requires Coherent(s)
    ensures Coherent(Begin(s, a).state)
  {}

  // mark_drained, fail_worker, verify_worker

  function Drain(s: State, id: string): Reply {
    if !s.Open() then Reply(s, Raised(ValidationError))
    else if id !in s.workers then Reply(s, Raised(KeyError))
    else
      var w, u := s.workers[id], s.active.value;
      if w.lifecycle != Draining || w.InFlight() > 0 then Reply(s, Raised(ValidationError))
      else
        var moved := s.(workers := s.workers[id := w.(lifecycle := Updating)]);
        if id !in u.workers then Reply(moved, Raised(KeyError))
        else
          var u' := u.(workers := u.workers[id := u.workers[id].(stage := Installing)], status := StatusUpdating);
          Reply(Persisted(moved.(active := Some(u'))), Ok)
  }

  function Fail(s: State, id: string, error: string): Reply {
    if !s.Open() then Reply(s, Raised(ValidationError))
    else if id !in s.workers then Reply(s, Raised(KeyError))
    else
      var u := s.active.value;
      var moved := s.(workers := s.workers[id := s.workers[id].(lifecycle := Failed)]);
      if id !in u.workers then Reply(moved, Raised(KeyError))
      else
        var entry := u.workers[id].(stage := Broken, error := Some(error));
        Reply(Persisted(moved.(active := Some(u.(workers := u.workers[id := entry], status := StatusFailed)))), Ok)
  }

  /** The first participant still pending. */
  function NextPending(order: seq<string>, workers: map<string, WorkerUpdate>): (next: Option<string>)
    ensures next.Some? ==> next.value in order && next.value in workers && workers[next.value].stage == Pending
    ensures next.None? ==> forall id | id in order && id in workers :: workers[id].stage != Pending
  {
    if order == [] then None
    else if order[0] in workers && workers[order[0]].stage == Pending then Some(order[0])
    else NextPending(order[1..], workers)
  }

  predicate ChecksumDiffers(expected: Option<string>, checksum: Option<string>) {
    expected.Some? && expected.value != "" && checksum != expected
  }

  /** The worker serves the loaded version; in rolling mode the next pending
      participant starts draining. */
  function Installed(s: State, id: string, loaded: int, checksum: Option<string>): State
    requires s.active.Some? && id in s.active.value.workers && id in s.workers
  {
    var u := s.active.value;
    var entries := u.workers[id := u.workers[id].(checksum := checksum, stage := Verified)];
    var next := if u.mode == Rolling then NextPending(u.order, entries) else None;
    var ws := s.workers[id := s.workers[id].(version := loaded, checksum := checksum, lifecycle := Ready)];
    var ws' := if next.Some? then SetLifecycle(ws, {next.value}, Draining) else ws;
    Persisted(s.(workers := ws', active := Some(u.(workers := entries))))
  }

  function Verify(s: State, id: string, loaded: int, checksum: Option<string>): Reply {
    if !s.Open() then Reply(s, Raised(ValidationError))
    else
      var u := s.active.value;
      if id !in u.workers || id !in s.workers then Reply(s, Raised(KeyError))
      else if s.workers[id].lifecycle != Updating then Reply(s, Raised(ValidationError))
      else if loaded != u.toVersion then
        Reply(Fail(s, id, "wrong version").state, Raised(ValidationError))
      else if ChecksumDiffers(u.expectedChecksum, checksum) then
        Reply(Fail(s, id, "parameter checksum mismatch").state, Raised(ValidationError))
      else
        Reply(Installed(s, id, loaded, checksum), Ok)
  }

  // commit, abort, check_timeout, restart

  predicate AllVerified(u: WeightUpdate) {
    forall id | id in u.workers :: u.workers[id].stage == Verified
  }

  function Commit(s: State): Reply {
    if !s.Open() || !AllVerified(s.active.value) then Reply(s, Raised(ValidationError))
    else Reply(Persisted(s.(active := Some(s.active.value.(status := Committed)))), Ok)
  }

  function Retired(u: WeightUpdate, id: string, w: Worker): Worker {
    if id !in u.workers then w
    else if u.workers[id].stage == Verified then w.(lifecycle := Failed)
    else if w.lifecycle == Draining || w.lifecycle == Updating then w.(lifecycle := Recovering)
    else w
  }

  function Abort(s: State): Reply {
    if !s.Open() then Reply(s, Raised(ValidationError))
    else
      var u := s.active.value;
      var ws := map id | id in s.workers :: Retired(u, id, s.workers[id]);
      Reply(Persisted(s.(workers := ws, active := Some(u.(status := Aborted)))), Ok)
  }

  function CheckTimeout(s: State, now: int): Reply {
    if !s.Open() then Reply(s, Raised(ValidationError))
    else if now <= s.active.value.deadline then Reply(s, Ok)
    else Abort(s)
  }

  function Fresh(list: seq<Worker>): map<string, Worker> {
    if list == [] then map[]
    else
      var last := list[|list| - 1];
      Fresh(list[..|list| - 1])[last.id := last]
  }

  function Names(list: seq<Worker>): (names: seq<string>)
    ensures |names| == |list| && forall i | 0 <= i < |names| :: names[i] == list[i].id
  {
    seq(|list|, i requires 0 <= i < |list| => list[i].id)
  }

  /** What a new process does with the state file it finds. */
  function Restart(list: seq<Worker>, durable: bool, disk: Disk): Reply {
    var blank := State(Names(list), Fresh(list), None, disk, durable);
    if !durable || disk.NoFile? then Reply(blank, Ok)
    else if disk.schema != 1 then Reply(blank, Raised(ValidationError))
    else if disk.active.None? then Reply(blank, Ok)
    else
      var u := disk.active.value;
      if u.Ended() then Reply(blank.(active := Some(u)), Ok)
      else
        var ws := SetLifecycle(blank.workers, SetOf(u.order), Recovering);
        Reply(Persisted(blank.(workers := ws, active := Some(u.(status := Aborted)))), Ok)
  }

  /** What the code relies on: the name list matches the worker table, and the
      participants of an open update are known workers. */
  ghost predicate Coherent(s: State) {
    && SetOf(s.names) == s.workers.Keys
    && (s.Open() ==>
          var u := s.active.value;
          SetOf(u.order) == u.workers.Keys <= s.workers.Keys)
  }

  /** The coordinator as the process holds it. Each method is tied to the
      transition of the same name. */
  class PolicyVersionCoordinator {
    var names: seq<string>
    var workers: map<string, Worker>
    var active: Option<WeightUpdate>
    var disk: Disk
    const durable: bool

    function View(): State
      reads this
    {
      State(names, workers, active, disk, durable)
    }

    ghost predicate Valid()
      reads this
    {
      Coherent(View())
    }

    constructor Empty(names: seq<string>, workers: map<string, Worker>, durable: bool, disk: Disk)
      ensures View() == State(names, workers, None, disk, durable)
    {
      this.names, this.workers, this.active, this.disk, this.durable := names, workers, None, disk, durable;
    }

    /** Builds the worker table, refuses repeated ids, and takes up the state
        file of an earlier process. */
    static method Start(list: seq<Worker>, durable: bool, disk: Disk)
      returns (c: PolicyVersionCoordinator, outcome: Outcome)
      ensures fresh(c)
      ensures DistinctIds(list) ==> Reply(c.View(), outcome) == Restart(list, durable, disk) && c.Valid()
      ensures !DistinctIds(list) ==> outcome == Raised(ValidationError)
    {
      var table: map<string, Worker> := map[];
      for i := 0 to |list|
        invariant table == Fresh(list[..i])
      {
        FreshStep(list, i);
        table := table[list[i].id := list[i]];
      }
      assert list[..|list|] == list;
      FreshTable(list);
      c := new PolicyVersionCoordinator.Empty(Names(list), table, durable, disk);
      if |table| != |list| {
        outcome := Raised(ValidationError);
      } else {
        outcome := c.RestoreAfterRestart();
      }
    }

    method RestoreAfterRestart() returns (outcome: Outcome)
      requires active == None && SetOf(names) == workers.Keys
      modifies this
      ensures Valid()
      ensures names == old(names)
      ensures var s := old(View());
        if !durable || s.disk.NoFile? || (s.disk.schema == 1 && s.disk.active.None?) then View() == s && outcome == Ok
        else if s.disk.schema != 1 then View() == s && outcome == Raised(ValidationError)
        else
          var u := s.disk.active.value;
          outcome == Ok &&
          if u.Ended() then View() == s.(active := Some(u))
          else View() == Persisted(s.(workers := SetLifecycle(s.workers, SetOf(u.order), Recovering),
                                      active := Some(u.(status := Aborted))))
    {
      outcome := Ok;
      if !durable || disk.NoFile? { return; }
      if disk.schema != 1 { return Raised(ValidationError); }
      if disk.active.None? { return; }
      var update := disk.active.value;
      active := Some(update);
      if !update.Ended() {
        active := Some(update.(status := Aborted));
        MoveAll(update.order, Recovering);
        Persist();
      }
    }

    /** Moves every listed worker that is known. */
    method MoveAll(ids: seq<string>, lifecycle: Lifecycle)
      modifies this`workers
      ensures workers == SetLifecycle(old(workers), SetOf(ids), lifecycle)
    {
      for i := 0 to |ids|
        invariant workers == SetLifecycle(old(workers), SetOf(ids[..i]), lifecycle)
      {
        MoveOne(old(workers), ids, i, lifecycle);
        if ids[i] in workers {
          workers := workers[ids[i] := workers[ids[i]].(lifecycle := lifecycle)];
        }
      }
      assert ids[..|ids|] == ids;
    }

    method Persist()
      modifies this`disk
      ensures View() == Persisted(old(View()))
    {
      if durable {
        disk := File(1, active);
      }
    }

    method BeginUpdate(a: BeginArgs) returns (outcome: Outcome)
      requires Valid()
      modifies this
      ensures Reply(View(), outcome) == Begin(old(View()), a) && Valid()
    {
      BeginKeepsCoherent(View(), a);
      if a.mode.OtherMode? || a.toVersion <= a.fromVersion { return Raised(ValidationError); }
      if active.Some? && !active.value.Ended() { return Raised(ValidationError); }
      var ids := if a.workerIds.Some? && a.workerIds.value != [] then a.workerIds.value else names;
      if ids == [] { return Raised(ValidationError); }
      var unfit := CheckFit(ids, a.fromVersion);
      if unfit.Some? { return Raised(unfit.value); }
      InstallUpdate(a, ids);
      return Ok;
    }

    /** Records the new update and starts draining. */
    method InstallUpdate(a: BeginArgs, ids: seq<string>)
      requires ids != []
      modifies this
      ensures View() == Begun(old(View()), a, ids)
    {
      var order := Dedup(ids);
      active := Some(NewUpdate(a, order));
      if a.mode == StopTheWorld {
        assert SetOf(ids) == SetOf(order);
        MoveAll(ids, Draining);
      } else {
        assert SetOf([ids[0]]) == {order[0]};
        MoveAll([ids[0]], Draining);
      }
      Persist();
    }

    method CheckFit(ids: seq<string>, version: int) returns (unfit: Option<Error>)
      ensures unfit == FirstUnfit(workers, ids, version)
    {
      for i := 0 to |ids|
        invariant FirstUnfit(workers, ids, version) == FirstUnfit(workers, ids[i..], version)
      {
        assert ids[i..][1..] == ids[i + 1..];
        if ids[i] !in workers { return Some(KeyError); }
        if workers[ids[i]].lifecycle != Ready || workers[ids[i]].version != version { return Some(ValidationError); }
      }
      return None;
    }

    method MarkDrained(id: string) returns (outcome: Outcome)
      requires Valid()
      modifies this
      ensures Reply(View(), outcome) == Drain(old(View()), id) && Valid()
    {
      if active.None? || active.value.Ended() { return Raised(ValidationError); }
      if id !in workers { return Raised(KeyError); }
      if workers[id].lifecycle != Draining { return Raised(ValidationError); }
      if workers[id].running > 0 || workers[id].queued > 0 { return Raised(ValidationError); }
      workers := workers[id := workers[id].(lifecycle := Updating)];
      var update := active.value;
      if id !in update.workers { return Raised(KeyError); }
      active := Some(update.(workers := update.workers[id := update.workers[id].(stage := Installing)],
                             status := StatusUpdating));
      Persist();
      return Ok;
    }

    method VerifyWorker(id: string, loaded: int, checksum: Option<string>) returns (outcome: Outcome)
      requires Valid()
      modifies this
      ensures Reply(View(), outcome) == Verify(old(View()), id, loaded, checksum) && Valid()
    {
      if active.None? || active.value.Ended() { return Raised(ValidationError); }
      var update := active.value;
      if id !in update.workers { return Raised(KeyError); }
      if workers[id].lifecycle != Updating { return Raised(ValidationError); }
      if loaded != update.toVersion {
        var failed := FailWorker(id, "wrong version");
        return Raised(ValidationError);
      }
      if ChecksumDiffers(update.expectedChecksum, checksum) {
        var failed := FailWorker(id, "parameter checksum mismatch");
        return Raised(ValidationError);
      }
      Install(id, loaded, checksum);
      return Ok;
    }

    /** Records the loaded version, and in rolling mode starts draining the next
        worker. */
    method Install(id: string, loaded: int, checksum: Option<string>)
      requires Valid() && active.Some? && !active.value.Ended() && id in active.value.workers
      modifies this
      ensures View() == Installed(old(View()), id, loaded, checksum)
    {
      var update := active.value;
      workers := workers[id := workers[id].(version := loaded, checksum := checksum, lifecycle := Ready)];
      update := update.(workers := update.workers[id := update.workers[id].(checksum := checksum, stage := Verified)]);
      active := Some(update);
      if update.mode == Rolling {
        var pending := NextPending(update.order, update.workers);
        if pending.Some? {
          ghost var before := workers;
          workers := workers[pending.value := workers[pending.value].(lifecycle := Draining)];
          assert workers == SetLifecycle(before, {pending.value}, Draining);
        }
      }
      Persist();
    }

    method CommitUpdate() returns (outcome: Outcome)
      requires Valid()
      modifies this
      ensures Reply(View(), outcome) == Commit(old(View())) && Valid()
    {
      if active.None? || active.value.Ended() { return Raised(ValidationError); }
      if !AllVerified(active.value) { return Raised(ValidationError); }
      active := Some(active.value.(status := Committed));
      Persist();
      return Ok;
    }

    method FailWorker(id: string, error: string) returns (outcome: Outcome)
      requires Valid()
      modifies this
      ensures Reply(View(), outcome) == Fail(old(View()), id, error) && Valid()
    {
      if active.None? || active.value.Ended() { return Raised(ValidationError); }
      if id !in workers { return Raised(KeyError); }
      workers := workers[id := workers[id].(lifecycle := Failed)];
      var update := active.value;
      if id !in update.workers { return Raised(KeyError); }
      var entry := update.workers[id].(stage := Broken, error := Some(error));
      active := Some(update.(workers := update.workers[id := entry], status := StatusFailed));
      Persist();
      return Ok;
    }

    method AbortUpdate() returns (outcome: Outcome)
      requires Valid()
      modifies this
      ensures Reply(View(), outcome) == Abort(old(View())) && Valid()
    {
      if active.None? || active.value.Ended() { return Raised(ValidationError); }
      var update := active.value;
      active := Some(update.(status := Aborted));
      RetireAll(update);
      Persist();
      return Ok;
    }

    /** Isolates the workers already verified; sends the draining and updating
        ones to recovery. */
    method RetireAll(update: WeightUpdate)
      requires SetOf(update.order) == update.workers.Keys <= workers.Keys
      modifies this`workers
      ensures workers == map id | id in old(workers) :: Retired(update, id, old(workers)[id])
    {
      for i := 0 to |update.order|
        invariant workers.Keys == old(workers).Keys
        invariant forall id | id in workers ::
                    workers[id] == if id in update.order[..i]
                                   then Retired(update, id, old(workers)[id]) else old(workers)[id]
      {
        var id := update.order[i];
        assert id in SetOf(update.order);
        assert update.order[..i + 1] == update.order[..i] + [id];
        if update.workers[id].stage == Verified {
          workers := workers[id := workers[id].(lifecycle := Failed)];
        } else if workers[id].lifecycle == Draining || workers[id].lifecycle == Updating {
          workers := workers[id := workers[id].(lifecycle := Recovering)];
        }
      }
      forall id | id in update.workers ensures id in update.order[..|update.order|] {
        assert id in SetOf(update.order);
      }
    }

    method CheckDeadline(now: int) returns (expired: bool, outcome: Outcome)
      requires Valid()
      modifies this
      ensures Reply(View(), outcome) == CheckTimeout(old(View()), now) && Valid()
      ensures expired <==> outcome == Ok && old(active).value.deadline < now
    {
      if active.None? || active.value.Ended() { return false, Raised(ValidationError); }
      if now <= active.value.deadline { return false, Ok; }
      outcome := AbortUpdate();
      expired := true;
    }
  }

  lemma FreshStep(list: seq<Worker>, i: nat)
    requires i < |list|
    ensures Fresh(list[..i + 1]) == Fresh(list[..i])[list[i].id := list[i]]
  {
    assert list[..i + 1][..i] == list[..i];
  }

  /** The table has a row per listed id, and as many rows as there are workers
      exactly when no id repeats. */
  lemma {:induction false} FreshTable(list: seq<Worker>)
    ensures Fresh(list).Keys == SetOf(Names(list))
    ensures |Fresh(list)| <= |list|
    ensures |Fresh(list)| == |list| <==> DistinctIds(list)
  {
    if list != [] {
      var n := |list| - 1;
      FreshTable(list[..n]);
      NamesGrow(list);
      DistinctStep(list);
      TableGrows(Fresh(list[..n]), list[n]);
    }
  }

  lemma NamesGrow(list: seq<Worker>)
    requires list != []
    ensures var n := |list| - 1; SetOf(Names(list)) == SetOf(Names(list[..n])) + {list[n].id}
  {
    var n := |list| - 1;
    assert Names(list) == Names(list[..n]) + [list[n].id];
  }

  lemma TableGrows(table: map<string, Worker>, w: Worker)
    ensures |table[w.id := w]| == |table| + if w.id in table then 0 else 1
    ensures table[w.id := w].Keys == table.Keys + {w.id}
  {
    assert |table[w.id := w].Keys| == |table.Keys| + if w.id in table then 0 else 1;
  }

  lemma DistinctStep(list: seq<Worker>)
    requires list != []
    ensures var n := |list| - 1;
      DistinctIds(list) <==> DistinctIds(list[..n]) && list[n].id !in Names(list[..n])
  {
    var n := |list| - 1;
    if DistinctIds(list) {
      forall i | 0 <= i < n ensures Names(list[..n])[i] != list[n].id {
        assert IdOf(list[i]) != IdOf(list[n]);
      }
    }
    if DistinctIds(list[..n]) && list[n].id !in Names(list[..n]) {
      forall i, j | 0 <= i < j < |list| ensures IdOf(list[i]) != IdOf(list[j]) {
        if j < n {
          assert IdOf(list[..n][i]) != IdOf(list[..n][j]);
        } else {
          assert Names(list[..n])[i] == list[i].id;
        }
      }
    }
  }
}
