/** The terms an update is begun on, and that they are kept: who takes part, by
    when, and with which parameters. */
module UpdateTerms {
  import opened Outcomes
  import opened Models
  import opened Versioning
  import opened Protocol
  import opened Executor

  /** The workers asked for take part, and all of them if none was asked for.
      Stop-the-world takes all of them out of service at once, rolling the first
      one. */
  lemma TermsAreTaken(s: State, a: BeginArgs)
    requires Inv(s) && Begin(s, a).outcome == Ok
    ensures var s' := Begin(s, a).state;
      && s'.Open()
      && var u := s'.active.value;
      && u.id == a.updateId && u.fromVersion == a.fromVersion && u.toVersion == a.toVersion && u.mode == a.mode
      && u.expectedChecksum == a.expectedChecksum
      && (forall id :: id in u.workers <==>
            if a.workerIds.Some? && a.workerIds.value != [] then id in a.workerIds.value else id in s.workers)
      && (forall id | id in u.workers :: u.workers[id].stage == Pending && u.workers[id].checksum == None)
      && s'.workers.Keys == s.workers.Keys
      && (forall id | id in s.workers ::
            s'.workers[id] == if id in u.workers && (a.mode == StopTheWorld || id == u.order[0])
                              then s.workers[id].(lifecycle := Draining) else s.workers[id])
      && (a.workerIds.Some? && a.workerIds.value != [] ==> u.order[0] == a.workerIds.value[0])
  {
    assert forall id :: id in SetOf(s.names) <==> id in s.workers;
    BeginKeepsInv(s, a);
  }

  /** An update begins exactly if the mode is known, the version goes up, no other
      is open, and there are workers to update, all of them READY at the version
      it starts from. */
  lemma BeginsIff(s: State, a: BeginArgs)
    requires Inv(s)
    ensures Begin(s, a).outcome == Ok <==>
              && (a.mode == StopTheWorld || a.mode == Rolling) && a.toVersion > a.fromVersion && !s.Open()
              && (exists id :: Asked(s, a, id))
              && forall id | Asked(s, a, id) ::
                   id in s.workers && s.workers[id].lifecycle == Ready && s.workers[id].version == a.fromVersion
    ensures Begin(s, a).outcome != Ok ==>
              Begin(s, a).state == s && Begin(s, a).outcome in {Raised(ValidationError), Raised(KeyError)}
  {
    assert forall id :: id in SetOf(s.names) <==> id in s.workers;
    assert forall id :: Asked(s, a, id) <==> id in Chosen(s, a);
    if Chosen(s, a) != [] { assert Asked(s, a, Chosen(s, a)[0]); }
  }

  /** The worker is to take part. */
  predicate Asked(s: State, a: BeginArgs, id: string) {
    if a.workerIds.Some? && a.workerIds.value != [] then id in a.workerIds.value else id in s.workers
  }

  /** A participant is marked drained exactly if it is draining and has nothing in
      flight, and then it is being updated; a participant reported as broken is
      failed, and so is the update. */
  lemma DrainAndFailDecide(s: State, id: string, error: string)
    requires Inv(s) && Participant(s, id)
    ensures var w, drained, failed := s.workers[id], Drain(s, id), Fail(s, id, error);
      && (if w.lifecycle == Draining && w.running == 0 && w.queued == 0
          then drained.outcome == Ok && drained.state.workers == s.workers[id := w.(lifecycle := Updating)]
               && Recorded(s, drained.state, id, Installing, StatusUpdating)
          else drained == Reply(s, Raised(ValidationError)))
      && failed.outcome == Ok && failed.state.workers == s.workers[id := w.(lifecycle := Failed)]
      && Recorded(s, failed.state, id, Broken, StatusFailed)
  {}

  /** The participant's record and the update's status moved on, and the file says
      so. */
  ghost predicate Recorded(s: State, s': State, id: string, stage: Stage, status: Status)
    requires s.active.Some? && id in s.active.value.workers
  {
    && s'.active.Some? && id in s'.active.value.workers
    && var u, u' := s.active.value, s'.active.value;
    && u'.workers == u.workers[id := u'.workers[id]] && u'.workers[id].stage == stage && u'.status == status
    && (s'.durable ==> s'.disk == File(1, s'.active))
  }

  /** An abort isolates the participants that serve the new version, sends those
      out of service to recovery, and leaves all others alone. A commit leaves
      all of them alone. */
  lemma EndsDecide(s: State, id: string)
    requires Inv(s) && s.Open() && id in s.workers
    ensures var w, aborted, committed := s.workers[id], Abort(s).state, Commit(s).state;
      && aborted.active == Some(s.active.value.(status := Aborted)) && id in aborted.workers
      && aborted.workers[id]
         == (if !Participant(s, id) then w
             else if w.lifecycle == Ready && w.version == s.active.value.toVersion then w.(lifecycle := Failed)
             else if w.lifecycle == Draining || w.lifecycle == Updating then w.(lifecycle := Recovering)
             else w)
      && committed.workers == s.workers
      && (Commit(s).outcome == Ok ==> committed.active == Some(s.active.value.(status := Committed)))
  {
    if Participant(s, id) { assert Coupled(s.active.value, s.active.value.workers[id], s.workers[id]); }
  }

  /** The update is open after every step so far. */
  ghost predicate StaysOpen(s: State, steps: seq<Step>) {
    s.Open() && (steps == [] || (StaysOpen(s, steps[..|steps| - 1]) && Run(s, steps).Open()))
  }

  lemma {:induction false} OpenKeepsIdentity(s: State, steps: seq<Step>)
    requires Inv(s) && LegalRun(s, steps) && StaysOpen(s, steps)
    ensures Inv(Run(s, steps)) && Run(s, steps).Open() && SameIdentity(s.active.value, Run(s, steps).active.value)
  {
    if steps != [] {
      var n := |steps| - 1;
      OpenKeepsIdentity(s, steps[..n]);
      StepKeepsInv(Run(s, steps[..n]), steps[n]);
      StepKeepsIdentity(Run(s, steps[..n]), steps[n]);
    }
  }

  /** Whatever has happened since, as long as the update is open a check of its
      deadline aborts it exactly if the time allowed at the beginning is over,
      and changes nothing before. */
  lemma DeadlineIsKept(s: State, a: BeginArgs, steps: seq<Step>, now: int)
    requires Inv(s) && Begin(s, a).outcome == Ok
    requires LegalRun(Begin(s, a).state, steps) && StaysOpen(Begin(s, a).state, steps)
    ensures var before := Run(Begin(s, a).state, steps);
      var after := CheckTimeout(before, now);
      && after.outcome == Ok
      && if now > a.now + a.timeout
         then after.state.active.Some? && after.state.active.value.status == Aborted
         else after.state == before && before.Open()
  {
    BeginKeepsInv(s, a);
    OpenKeepsIdentity(Begin(s, a).state, steps);
  }

  // Parameters.

  /** What a worker has to report to be taken for updated. */
  predicate Expected(u: WeightUpdate, loaded: int, checksum: Option<string>) {
    && loaded == u.toVersion
    && (u.expectedChecksum in {None, Some("")} || checksum == u.expectedChecksum)
  }

  /** The participant serves the target version with these parameters, or else is
      failed together with the update. */
  ghost predicate Decided(s: State, s': State, id: string, checksum: Option<string>, good: bool)
    requires s.Open() && id in s.workers
  {
    && s'.Open() && id in s'.workers && id in s'.active.value.workers
    && var u, entry := s.active.value, s'.active.value.workers[id];
    && s'.workers[id]
       == (if good then s.workers[id].(lifecycle := Ready, version := u.toVersion, checksum := checksum)
           else s.workers[id].(lifecycle := Failed))
    && (if good then entry.stage == Verified && entry.checksum == checksum
        else entry.stage == Broken && s'.active.value.status == StatusFailed)
  }

  /** In every reachable state a participant that is being updated is installed
      exactly if it loaded the target version and, where one is asked for, the
      very parameters; otherwise it is failed. Any other participant is left as
      it is. */
  lemma VerificationDecides(l: Launch, events: seq<Event>, s: State, id: string, loaded: int, checksum: Option<string>)
    requires Reachable(l, events, s) && Participant(s, id)
    ensures id in s.workers
    ensures var good, r := Expected(s.active.value, loaded, checksum), Verify(s, id, loaded, checksum);
      if s.workers[id].lifecycle != Updating then r == Reply(s, Raised(ValidationError))
      else r.outcome == (if good then Ok else Raised(ValidationError)) && Decided(s, r.state, id, checksum, good)
  {
    LivesAreSound(l, events);
    if s.workers[id].lifecycle == Updating {
      if Expected(s.active.value, loaded, checksum) {
        AcceptedIsInstalled(s, id, loaded, checksum);
      } else {
        OthersAreFailed(s, id, loaded, checksum);
      }
    }
  }

  lemma AcceptedIsInstalled(s: State, id: string, loaded: int, checksum: Option<string>)
    requires Inv(s) && Participant(s, id) && s.workers[id].lifecycle == Updating
    requires Expected(s.active.value, loaded, checksum)
    ensures var r := Verify(s, id, loaded, checksum); r.outcome == Ok && Decided(s, r.state, id, checksum, true)
  {
    assert Coupled(s.active.value, s.active.value.workers[id], s.workers[id]);
  }

  lemma OthersAreFailed(s: State, id: string, loaded: int, checksum: Option<string>)
    requires Inv(s) && Participant(s, id) && s.workers[id].lifecycle == Updating
    requires !Expected(s.active.value, loaded, checksum)
    ensures var r := Verify(s, id, loaded, checksum);
      r.outcome == Raised(ValidationError) && Decided(s, r.state, id, checksum, false)
  {}

  /** A participant known to be updated bears the checksum asked for. */
  ghost predicate Bears(s: State, id: string)
    requires s.active.Some?
  {
    var u := s.active.value;
    id in u.workers && id in s.workers && u.workers[id].stage == Verified && u.expectedChecksum !in {None, Some("")}
    ==> u.workers[id].checksum == u.expectedChecksum && s.workers[id].checksum == u.expectedChecksum
  }

  ghost predicate AllBear(s: State) {
    s.Open() ==> forall id | id in s.active.value.workers :: Bears(s, id)
  }

  lemma VerifyBears(s: State, p: string, v: int, c: Option<string>, id: string)
    requires Inv(s) && Participant(s, id) && Bears(s, id)
    ensures var s' := Verify(s, p, v, c).state; s'.active.Some? && Bears(s', id)
  {
    if Verify(s, p, v, c).outcome == Ok {
      VerifyInstalls(s, p, v, c);
      InstallBears(s, p, v, c, id);
    }
  }

  lemma InstallBears(s: State, p: string, v: int, c: Option<string>, id: string)
    requires Participant(s, id) && Bears(s, id) && p in s.active.value.workers && p in s.workers
    requires s.active.value.expectedChecksum in {None, Some("")} || c == s.active.value.expectedChecksum
    ensures var s' := Installed(s, p, v, c); s'.active.Some? && Bears(s', id)
  {}

  lemma StepBears(s: State, step: Step, id: string)
    requires Inv(s) && Legal(s, step) && s.Open() && Apply(s, step).Open()
    requires id in s.active.value.workers && Bears(s, id)
    ensures Bears(Apply(s, step), id)
  {
    match step
    case DoVerify(p, v, c) => VerifyBears(s, p, v, c, id);
    case _ =>
  }

  lemma StepKeepsBearing(s: State, step: Step)
    requires Inv(s) && Legal(s, step) && AllBear(s)
    ensures AllBear(Apply(s, step))
  {
    if Apply(s, step).Open() {
      OpensByBegin(s, step);
      if s.Open() {
        StepKeepsIdentity(s, step);
        forall id | id in s.active.value.workers ensures Bears(Apply(s, step), id) {
          StepBears(s, step, id);
        }
      }
    }
  }

  lemma {:induction false} LivesBear(l: Launch, events: seq<Event>)
    requires Starts(l) && LegalLife(Origin(l), events)
    ensures AllBear(Live(Origin(l), events))
  {
    if events == [] {
      RestartIsSound(l.list, l.durable, l.disk);
    } else {
      var front, e := events[..|events| - 1], events[|events| - 1];
      LivesBear(l, front);
      LivesAreSound(l, front);
      match e
      case Do(step) => StepKeepsBearing(Live(Origin(l), front), step);
      case Crash(list) => RestartIsSound(list, Live(Origin(l), front).durable, Live(Origin(l), front).disk);
    }
  }

  /** In every reachable state every participant known to be updated bears the
      checksum asked for, in its record and on the worker; so an update that can
      be committed put the very parameters asked for on all of them. */
  lemma ChecksumsAgree(l: Launch, events: seq<Event>, s: State, id: string)
    requires Reachable(l, events, s) && Participant(s, id) && s.active.value.expectedChecksum !in {None, Some("")}
    ensures id in s.workers
    ensures s.active.value.workers[id].stage == Verified || Commit(s).outcome == Ok ==>
              && s.active.value.workers[id].checksum == s.active.value.expectedChecksum
              && s.workers[id].checksum == s.active.value.expectedChecksum
              && s.workers[id].version == s.active.value.toVersion
  {
    LivesAreSound(l, events);
    LivesBear(l, events);
    assert Bears(s, id);
    assert Coupled(s.active.value, s.active.value.workers[id], s.workers[id]);
  }
}
